/** What `processWithOpenAI` does with the external service's answer. The
    request itself (prompt, network call) is outside the model; its outcome is
    a `ModelReply`: either the call or the JSON parsing failed, or the reply
    parsed into an object whose four fields may each be absent. */
module ModelClassifier {
  import opened Wrappers
  import opened Emails
  import opened RuleClassifier

  datatype ModelReply =
    | Failed
    | Parsed(category: Option<string>, priority: Option<string>, action: Option<string>, response: Option<string>)

  /** The object an empty completion parses to: the content falls back to `'{}'`. */
  const EmptyObject := Parsed(None, None, None, None)

  /** JavaScript truthiness of an optional string: present and not empty. */
  predicate Truthy(v: Option<string>)
  {
    v.Some? && v.value != ""
  }

  /** `v || fallback`: the value when it is truthy, the fallback otherwise. */
  function OrElse(v: Option<string>, fallback: string): (r: string)
    ensures Truthy(v) ==> v == Some(r)
    ensures !Truthy(v) ==> r == fallback
    ensures fallback != "" ==> r != ""
  {
    if Truthy(v) then v.value else fallback
  }

  /** `processWithOpenAI` after the call: a parsed reply is taken field by
      field with defaults, any failure falls back to the rule classifier. */
  function ProcessWithOpenAI(e: Email, reply: ModelReply): (r: ProcessedEmail)
    ensures Echoes(r, e)
    ensures reply.Failed? ==> r == SimulateAIProcessing(e)
    ensures r.category != "" && r.priority != "" && r.action != ""
    ensures reply.Parsed? ==> r.response == reply.response
  {
    match reply
    case Failed => SimulateAIProcessing(e)
    case Parsed(category, priority, action, response) =>
      ProcessedEmail(e.id, e.from, e.subject, e.body, e.timestamp,
                     OrElse(category, GeneralCategory),
                     OrElse(priority, PriorityLabel(Low)),
                     OrElse(action, ActionLabel(AutoReply)),
                     response)
  }

  /** A field that is missing or empty gets its default; any other value is
      kept exactly as the service sent it. */
  lemma FieldDefaults(e: Email, reply: ModelReply)
    requires reply.Parsed?
    ensures var r := ProcessWithOpenAI(e, reply);
      (!Truthy(reply.category) ==> r.category == GeneralCategory) &&
      (!Truthy(reply.priority) ==> r.priority == PriorityLabel(Low)) &&
      (!Truthy(reply.action) ==> r.action == ActionLabel(AutoReply)) &&
      (Truthy(reply.category) ==> r.category == reply.category.value) &&
      (Truthy(reply.priority) ==> r.priority == reply.priority.value) &&
      (Truthy(reply.action) ==> r.action == reply.action.value)
  {
  }

  /** The model path does not validate: the output priority is one of the
      three labels exactly when the service sent one of them or nothing usable,
      and likewise for the action. */
  lemma LabelsOnlyAsValidAsTheReply(e: Email, reply: ModelReply)
    requires reply.Parsed?
    ensures IsPriorityLabel(ProcessWithOpenAI(e, reply).priority) <==>
      !Truthy(reply.priority) || IsPriorityLabel(reply.priority.value)
    ensures IsActionLabel(ProcessWithOpenAI(e, reply).action) <==>
      !Truthy(reply.action) || IsActionLabel(reply.action.value)
  {
    if !Truthy(reply.priority) {
      assert PriorityLabel(Low) == ProcessWithOpenAI(e, reply).priority;
    }
    if !Truthy(reply.action) {
      assert ActionLabel(AutoReply) == ProcessWithOpenAI(e, reply).action;
    }
  }

  /** On the model path a reply may be kept for an ignored message, and a
      priority outside the three tiers passes through. */
  lemma ModelPathKeepsUncheckedValues(e: Email)
    ensures var r := ProcessWithOpenAI(e, Parsed(Some("x"), Some("high"), Some("تجاهل"), Some("ok")));
      r.action == ActionLabel(Ignore) && r.response.Some? && !IsPriorityLabel(r.priority)
  {
    var r := ProcessWithOpenAI(e, Parsed(Some("x"), Some("high"), Some("تجاهل"), Some("ok")));
    forall p: Priority ensures PriorityLabel(p) != r.priority {
      assert PriorityLabel(p)[0] != 'h';
    }
  }

  /** An empty completion gives the general category, low priority, an
      automatic reply action and no reply text. */
  lemma EmptyCompletion(e: Email)
    ensures var r := ProcessWithOpenAI(e, EmptyObject);
      r.category == GeneralCategory && r.priority == PriorityLabel(Low) &&
      r.action == ActionLabel(AutoReply) && r.response == None
  {
  }
}
