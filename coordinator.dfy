/** The `POST` handler: validates the request body, picks the strategy from the
    configured API key and triages the batch one email at a time, in order. */
module Coordinator {
  import opened Wrappers
  import opened Emails
  import opened RuleClassifier
  import opened ModelClassifier

  /** The `emails` property of the request body. */
  datatype EmailsField = NotAnArray | AnArray(items: seq<Email>)

  /** What `request.json()` and the destructuring of its result give: a body
      that could not be read (not JSON, or `null`) or an object. */
  datatype RequestBody = Unreadable | Json(emails: EmailsField)

  /** The JSON response with its HTTP status. */
  datatype Response =
    | Processed(processedEmails: seq<ProcessedEmail>)
    | Failure(status: int, error: string)

  const InvalidRequest := Failure(400, "Invalid request format")
  const ProcessingFailed := Failure(500, "Failed to process emails")

  /** The model path is taken when `OPENAI_API_KEY` is set, not empty and not `'demo'`. */
  predicate UsesModel(apiKey: Option<string>)
  {
    apiKey.Some? && apiKey.value != "" && apiKey.value != "demo"
  }

  /** Every result carries its email's fields and a non-empty category,
      priority and action; on the rule path the priority and action are among
      the declared labels and a reply is present exactly when the action is
      not to ignore. */
  predicate WellFormed(r: ProcessedEmail, e: Email, apiKey: Option<string>)
  {
    Echoes(r, e) && r.category != "" && r.priority != "" && r.action != "" &&
    (!UsesModel(apiKey) ==>
      IsPriorityLabel(r.priority) && IsActionLabel(r.action) &&
      (r.response.None? <==> r.action == ActionLabel(Ignore)))
  }

  /** One email through the strategy the key selects; `reply` is what the
      service answers for it when it is asked. */
  function TriageOne(e: Email, apiKey: Option<string>, reply: ModelReply): (r: ProcessedEmail)
    ensures Echoes(r, e)
    ensures reply.Failed? ==> r == SimulateAIProcessing(e)
  {
    if UsesModel(apiKey) then ProcessWithOpenAI(e, reply) else SimulateAIProcessing(e)
  }

  /** The results for a batch: the i-th is the i-th email triaged with the
      i-th reply. */
  function TriageAll(emails: seq<Email>, apiKey: Option<string>, replies: seq<ModelReply>): (r: seq<ProcessedEmail>)
    requires |replies| == |emails|
    ensures |r| == |emails|
  {
    seq(|emails|, i requires 0 <= i < |emails| => TriageOne(emails[i], apiKey, replies[i]))
  }

  /** Triaging one more email of the batch appends its result. */
  lemma TriageAllExtend(emails: seq<Email>, apiKey: Option<string>, replies: seq<ModelReply>, i: nat)
    requires |replies| == |emails| && i < |emails|
    ensures TriageAll(emails[..i + 1], apiKey, replies[..i + 1]) ==
      TriageAll(emails[..i], apiKey, replies[..i]) + [TriageOne(emails[i], apiKey, replies[i])]
  {
    var longer := TriageAll(emails[..i + 1], apiKey, replies[..i + 1]);
    var shorter := TriageAll(emails[..i], apiKey, replies[..i]);
    forall k | 0 <= k < i
      ensures longer[k] == shorter[k]
    {
      assert emails[..i + 1][k] == emails[..i][k] && replies[..i + 1][k] == replies[..i][k];
    }
  }

  /** `POST`: a body that cannot be read is a 500, an `emails` that is not an
      array is a 400, and otherwise every email is triaged in order. */
  method Post(request: RequestBody, apiKey: Option<string>, replies: seq<ModelReply>) returns (resp: Response)
    requires request.Json? && request.emails.AnArray? ==> |replies| == |request.emails.items|
    ensures request.Unreadable? ==> resp == ProcessingFailed
    ensures request.Json? && request.emails.NotAnArray? ==> resp == InvalidRequest
    ensures request.Json? && request.emails.AnArray? ==>
      resp == Processed(TriageAll(request.emails.items, apiKey, replies))
    ensures request.Json? && request.emails.AnArray? ==>
      forall i :: 0 <= i < |request.emails.items| ==>
        resp.processedEmails[i] == TriageOne(request.emails.items[i], apiKey, replies[i])
  {
    if request.Unreadable? {
      return ProcessingFailed;
    }
    if !request.emails.AnArray? {
      return InvalidRequest;
    }
    var emails := request.emails.items;
    var processedEmails: seq<ProcessedEmail> := [];
    var i := 0;
    while i < |emails|
      invariant 0 <= i <= |emails|
      invariant processedEmails == TriageAll(emails[..i], apiKey, replies[..i])
    {
      var email := emails[i];
      var processed;
      if UsesModel(apiKey) {
        processed := ProcessWithOpenAI(email, replies[i]);
      } else {
        processed := SimulateAIProcessing(email);
      }
      assert processed == TriageOne(email, apiKey, replies[i]);
      TriageAllExtend(emails, apiKey, replies, i);
      processedEmails := processedEmails + [processed];
      i := i + 1;
    }
    assert emails[..i] == emails && replies[..i] == replies;
    return Processed(processedEmails);
  }

  // ---------------------------------------------------------------------------
  // Properties of a batch.

  /** Without a usable key every email goes through the rule classifier, and
      the service's replies play no part. */
  lemma RulePathIgnoresReplies(emails: seq<Email>, apiKey: Option<string>, replies: seq<ModelReply>)
    requires |replies| == |emails| && !UsesModel(apiKey)
    ensures forall i :: 0 <= i < |emails| ==>
      TriageAll(emails, apiKey, replies)[i] == SimulateAIProcessing(emails[i])
  {
  }

  /** With a usable key every email goes to the service, each with its own reply. */
  lemma ModelPathUsesReplies(emails: seq<Email>, apiKey: Option<string>, replies: seq<ModelReply>)
    requires |replies| == |emails| && UsesModel(apiKey)
    ensures forall i :: 0 <= i < |emails| ==>
      TriageAll(emails, apiKey, replies)[i] == ProcessWithOpenAI(emails[i], replies[i])
  {
  }

  /** A failure for one email falls back to the rule classifier for that email
      alone: its siblings' results depend only on their own replies. */
  lemma FallbackIsPerEmail(emails: seq<Email>, apiKey: Option<string>, replies: seq<ModelReply>, k: nat)
    requires |replies| == |emails| && k < |emails| && UsesModel(apiKey)
    ensures var failed := replies[k := Failed];
      TriageAll(emails, apiKey, failed)[k] == SimulateAIProcessing(emails[k]) &&
      forall i :: 0 <= i < |emails| && i != k ==>
        TriageAll(emails, apiKey, failed)[i] == TriageAll(emails, apiKey, replies)[i]
  {
  }

  /** Every result of a batch is well formed for its email. */
  lemma BatchResultsWellFormed(emails: seq<Email>, apiKey: Option<string>, replies: seq<ModelReply>)
    requires |replies| == |emails|
    ensures forall i :: 0 <= i < |emails| ==>
      WellFormed(TriageAll(emails, apiKey, replies)[i], emails[i], apiKey)
  {
  }
}
