# Email triage engine, modelled in Dafny

The repository is a small web application that triages inbound emails written in
Arabic. Its one piece of decision logic is the `POST /api/process-emails` route
(`app/api/process-emails/route.ts`). For each email in a batch, the route assigns a
category, a priority (`عاجل`, `متوسط` or `منخفض`) and an action (`رد تلقائي`,
`بحاجة لمراجعة` or `تجاهل`), and it may draft a reply. It has two strategies:

- `simulateAIProcessing`, a deterministic rule classifier. It is an ordered,
  first-match-wins chain of substring tests over the lower-cased body and subject.
- `processWithOpenAI`, which asks an external text-generation service for a JSON
  answer. A missing or empty category, priority or action gets a default, and the
  reply text is passed through as the service sent it. If the call or the parse
  fails, it falls back to the rule classifier.

The route uses the service only when `OPENAI_API_KEY` is set, is not empty and is not
`'demo'`. It triages the emails one after another and returns the results in input
order.

Files:

- `wrappers.dfy`: `Option`, standing for a property that may be `undefined`.
- `text.dfy` (module `Text`): `includes` as `Contains` ("some suffix starts with the
  keyword"), `toLowerCase` as `Lower`, and lemmas about both.
- `emails.dfy` (module `Emails`): `Email`, `ProcessedEmail`, and the closed priority
  and action sets with their Arabic labels.
- `rule_classifier.dfy` (module `RuleClassifier`): the keyword chain `Classify`, the
  per-rule verdicts with their reply templates, and `SimulateAIProcessing`. It also
  holds a separate rule table (`Rank`, `BodyKeywords`, `SubjectKeywords`, `Fires`).
  `FirstMatchWins` proves that the chain and the table agree.
- `rule_examples.dfy` (module `RuleExamples`): concrete emails run through the rule
  classifier.
- `model_classifier.dfy` (module `ModelClassifier`): the service's answer as a
  `ModelReply` (`Failed`, or `Parsed` with four optional strings), and
  `ProcessWithOpenAI`.
- `coordinator.dfy` (module `Coordinator`): the request body, the response, the
  strategy choice `UsesModel`, the specification `TriageAll` (the results of a batch,
  position by position), and `Post`. `Post` is a method whose loop appends one
  result per email.

## Notes on the code's behaviour

- Only the inquiry rule reads the subject, and only for `سؤال`. Every other rule
  reads the lower-cased body alone.
- The model path passes the service's values through unchecked. A priority or
  action outside the declared sets reaches the result. A reply can come with the
  action `تجاهل`, and an automatic-reply action can come without a reply. The
  invariants "priority is one of three" and "reply present iff the action is not
  ignore" hold on the rule path and for every email whose service call fails.
- The category, priority and action of the service's answer get their defaults
  when they are missing and also when they are the empty string (JavaScript's
  `||`). The `response` field is taken as it is, missing or empty included.
- The fallback to the rule classifier sits inside `processWithOpenAI`. A failure
  for one email affects that email's result alone.
- The route checks only that `emails` is an array. It reads each element as an
  email without checking its shape.
- The batch loop awaits each email before it starts the next one, and it returns
  the results in input order.

## Model

| member | source | states |
|---|---|---|
| `Text.ContainsIffOccurs` | app/api/process-emails/route.ts:34-58 | `Contains(s, k)` holds exactly when `k` occurs in `s` at some index, which is what `includes` tests |
| `Text.Lower` | app/api/process-emails/route.ts:25-26 | lower-casing keeps the length, turns each upper-case ASCII letter into its lower-case letter, and leaves every other character (every Arabic letter) unchanged |
| `Text.ContainsLower` | app/api/process-emails/route.ts:25-26 | an occurrence of a keyword in any casing is an occurrence of the lower-cased keyword in the lower-cased text |
| `Text.ContainsLowerCaseless` | app/api/process-emails/route.ts:25-26 | a keyword without ASCII letters (every Arabic keyword) is found in the lower-cased text iff it is found in the original |
| `Emails.LabelsDistinct` | app/api/process-emails/route.ts:18-20 | the three priority labels are pairwise distinct, and so are the three action labels |
| `RuleClassifier.Classify` | app/api/process-emails/route.ts:34-68 | the chosen rule's test holds and the test of every rule before it in the table fails |
| `RuleClassifier.FiresExplicit` | app/api/process-emails/route.ts:34-58 | each rule's test in the rule table is the disjunction of `includes` tests on that rule's keywords, and only the inquiry rule looks at the subject |
| `RuleClassifier.FirstMatchWins` | app/api/process-emails/route.ts:34-68 | the chain picks rule `r` iff `r`'s test holds and the test of every earlier rule fails; the general rule is the default |
| `RuleClassifier.RuleVerdict` | app/api/process-emails/route.ts:35-67 | every rule sets a non-empty category; the action is `تجاهل` exactly for the marketing rule; the priority is `عاجل` exactly when the action is `بحاجة لمراجعة`, which is exactly for the complaint and urgent rules; every rule except marketing drafts a non-empty reply |
| `RuleClassifier.NonInquiryVerdictConstant` | app/api/process-emails/route.ts:39-67 | every verdict other than the inquiry one, reply text included, is the same whatever the subject |
| `RuleClassifier.SimulateAIProcessing` | app/api/process-emails/route.ts:24-77 | the result carries every email field unchanged and a non-empty category; the priority and action are among the declared labels; the reply is absent iff the action is `تجاهل` |
| `RuleClassifier.IgnoreOnlyForMarketing` | app/api/process-emails/route.ts:54-57 | the action is `تجاهل`, and the reply is absent, exactly when the marketing rule applies |
| `RuleClassifier.OnlyInquiryReadsSubject` | app/api/process-emails/route.ts:34-58 | any verdict other than "inquiries" is the one the body alone would give |
| `RuleClassifier.SubjectOnlyMattersForInquiries` | app/api/process-emails/route.ts:34-68 | two emails with the same body that do not fall under the inquiry rule get the same category, priority, action and reply, whatever their subjects |
| `RuleClassifier.InquiryReplyQuotesSubject` | app/api/process-emails/route.ts:38 | the inquiry reply is the template around the subject as written (not lower-cased), and it contains that subject |
| `RuleClassifier.NoKeywordMeansGeneral` | app/api/process-emails/route.ts:63-67 | when no rule's keyword is present, the result is `عام` / `منخفض` / `رد تلقائي` with the general reply |
| `RuleClassifier.EmptyEmailIsGeneral` | app/api/process-emails/route.ts:63-67 | an empty body and subject get the general verdict and the general reply |
| `RuleClassifier.UrgentInAnyCase` | app/api/process-emails/route.ts:44-48 | a body containing `urgent` in any casing falls under the urgent rule or an earlier one, and never gets priority `منخفض` |
| `RuleClassifier.SameRuleSameOutcome` | app/api/process-emails/route.ts:39-76 | two emails under the same rule other than "inquiries" get the same category, priority, action and reply |
| `RuleClassifier.InquiryOnRawText` | app/api/process-emails/route.ts:25-38 | an email is an inquiry iff its body as written contains `طلب` or `استفسار` or its subject as written contains `سؤال`: lower-casing neither adds nor removes a match of these keywords |
| `RuleExamples.InquiryBeforeComplaint` | app/api/process-emails/route.ts:34-43 | any body containing both `طلب` and `شكوى` is an inquiry (`استفسارات` / `متوسط` / `رد تلقائي`, with the reply quoting the subject) |
| `RuleExamples.QuestionIsInquiry` | app/api/process-emails/route.ts:34-38 | subject `سؤال` with an inquiry in the body gives the inquiry verdict and the reply quoting `سؤال` |
| `RuleExamples.LowerUrgentIsUrgent` | app/api/process-emails/route.ts:34-48 | the text `urgent` with an empty subject misses every earlier rule and hits the urgent rule |
| `RuleExamples.UpperCaseUrgent` | app/api/process-emails/route.ts:25-48 | a body `URGENT` gives `عاجل` / `عاجل` / `بحاجة لمراجعة` and the urgent reply |
| `RuleExamples.OfferIsMarketing` | app/api/process-emails/route.ts:34-57 | the text `عرض` with an empty subject misses the first four rules and hits the marketing rule |
| `RuleExamples.OfferIgnored` | app/api/process-emails/route.ts:54-57 | a body `عرض` gives `تسويق` / `منخفض` / `تجاهل` with no reply |
| `RuleExamples.SentenceIsMarketing` | app/api/process-emails/route.ts:34-57 | the text `هذا عرض تسويقي رائع` with an empty subject misses the first four rules (for `ضروري`, each side of the middle space lacks one of its letters) and hits the marketing rule |
| `RuleExamples.SentenceIgnored` | app/api/process-emails/route.ts:25-57 | a body `هذا عرض تسويقي رائع` gives `تسويق` / `منخفض` / `تجاهل` with no reply |
| `ModelClassifier.OrElse` | app/api/process-emails/route.ts:120-122 | JavaScript's defaulting `or` gives the value when it is truthy (present and not empty, `Truthy`) and the fallback otherwise, so a non-empty fallback gives a non-empty result |
| `ModelClassifier.ProcessWithOpenAI` | app/api/process-emails/route.ts:116-128 | the result carries the email's fields; a failure gives exactly the rule classifier's result; category, priority and action are never empty; a parsed reply's `response` is passed through as is |
| `ModelClassifier.FieldDefaults` | app/api/process-emails/route.ts:120-122 | a missing or empty category, priority or action becomes `عام` / `منخفض` / `رد تلقائي`; any other value is kept as sent |
| `ModelClassifier.LabelsOnlyAsValidAsTheReply` | app/api/process-emails/route.ts:118-124 | the output priority (action) is a declared label iff the reply's is missing, empty or already a declared label |
| `ModelClassifier.ModelPathKeepsUncheckedValues` | app/api/process-emails/route.ts:121-123 | a reply can yield action `تجاهل` with a reply text and a priority outside the three tiers |
| `ModelClassifier.EmptyCompletion` | app/api/process-emails/route.ts:116 | an empty completion (parsed as `{}`) gives `عام` / `منخفض` / `رد تلقائي` and no reply |
| `Coordinator.TriageOne` | app/api/process-emails/route.ts:147-149 | whichever strategy the key selects, the result carries the email's fields, and a failed call gives exactly the rule classifier's result |
| `Coordinator.TriageAll` | app/api/process-emails/route.ts:143-152 | a batch yields exactly one result per email |
| `Coordinator.TriageAllExtend` | app/api/process-emails/route.ts:151 | triaging one more email appends its result to those of the emails before it |
| `Coordinator.Post` | app/api/process-emails/route.ts:131-162 | an unreadable body gives 500 `Failed to process emails`; a non-array `emails` gives 400 `Invalid request format` and no results; an array gives the results of `TriageAll`, the i-th for the i-th email |
| `Coordinator.RulePathIgnoresReplies` | app/api/process-emails/route.ts:147-149 | without a usable key every email goes through the rule classifier, whatever the service would answer |
| `Coordinator.ModelPathUsesReplies` | app/api/process-emails/route.ts:147-149 | with a usable key every email goes through `processWithOpenAI` with its own reply |
| `Coordinator.FallbackIsPerEmail` | app/api/process-emails/route.ts:125-128 | a failure for one email gives that email the rule classifier's result and leaves every other email's result unchanged |
| `Coordinator.BatchResultsWellFormed` | app/api/process-emails/route.ts:70-76 | every result echoes its email and has a non-empty category, priority and action; on the rule path the labels are the declared ones and a reply is present iff the action is not `تجاهل` |

## Left out

- The prompt, the chat-completion request, the model name, `temperature` and `max_tokens` (route.ts:4-6, 79-114). These are a call to an external service. Its outcome is the `ModelReply` parameter: one reply per email, given as a sequence.
- The two kinds of failure (the network call throws, or `JSON.parse` throws) are both `Failed`. The code treats them the same way. A parse result of `null` makes `result.category` throw inside the same `try`, so it is also `Failed`.
- `JSON.parse` can give non-string values (numbers, objects) for the four fields. They are abstracted to `Option<string>`. A truthy non-string value would be passed through like a string.
- `Lower`: `toLowerCase` is modelled on the ASCII letters only. Arabic letters have no case, and the only ASCII keyword is `urgent`. Full Unicode case mapping is not modelled.
- Extra properties of an email object, beyond the five declared fields, are not modelled. The spread would copy them into the result.
- Array elements that are not email-shaped are not modelled. On the rule path, and on the model path when the call fails, reading `email.body.toLowerCase()` throws for such an element and the route answers 500 for the whole batch. On the model path with a successful call, an element such as `{}` or `5` does not throw: the prompt only interpolates its fields (route.ts:88-90) and the result spreads it (route.ts:118-119). An element that is `null` throws in the prompt and again in the fallback, so the route answers 500. The only 500 path modelled is a request body that cannot be read (`Unreadable`).
- The timestamp is kept as the text the JSON body carries. It is only echoed.
- The `console.error` logging and the construction of `NextResponse`.
- The fallback of the client's key to `'demo'` (route.ts:5). It only matters for the excluded network call.
- `app/page.tsx` and `app/layout.tsx`: the user interface and the page shell.
