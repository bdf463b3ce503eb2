/** The records the triage route reads and returns (`Email`, `ProcessedEmail`)
    and the closed sets of priorities and actions declared for them. */
module Emails {
  import opened Wrappers

  /** An inbound message as the request body carries it. The timestamp arrives
      inside a JSON body, so it is kept as the text it was sent as. */
  datatype Email = Email(id: string, from: string, subject: string, body: string, timestamp: string)

  /** The three priority tiers. */
  datatype Priority = Urgent | Medium | Low

  /** The three handling actions. */
  datatype Action = AutoReply | NeedsReview | Ignore

  function PriorityLabel(p: Priority): string
  {
    match p
    case Urgent => "عاجل"
    case Medium => "متوسط"
    case Low => "منخفض"
  }

  function ActionLabel(a: Action): string
  {
    match a
    case AutoReply => "رد تلقائي"
    case NeedsReview => "بحاجة لمراجعة"
    case Ignore => "تجاهل"
  }

  /** `s` is one of the priority labels the `ProcessedEmail` type declares. */
  predicate IsPriorityLabel(s: string)
  {
    exists p: Priority :: PriorityLabel(p) == s
  }

  /** `s` is one of the action labels the `ProcessedEmail` type declares. */
  predicate IsActionLabel(s: string)
  {
    exists a: Action :: ActionLabel(a) == s
  }

  /** The labels name their tiers and actions one-to-one. */
  lemma LabelsDistinct(p: Priority, q: Priority, a: Action, b: Action)
    ensures PriorityLabel(p) == PriorityLabel(q) <==> p == q
    ensures ActionLabel(a) == ActionLabel(b) <==> a == b
  {
    match p
    case Urgent => assert PriorityLabel(p)[0] == 'ع';
    case Medium => assert PriorityLabel(p)[1] == 'ت';
    case Low => assert PriorityLabel(p)[1] == 'ن';
  }

  /** A triaged message: every field of the email, then the classification.
      `priority` and `action` are strings because the model path stores
      whatever the external service returned. */
  datatype ProcessedEmail = ProcessedEmail(
    id: string, from: string, subject: string, body: string, timestamp: string,
    category: string, priority: string, action: string, response: Option<string>)

  /** `p` carries the fields of `e` unchanged (`{...email, ...}`). */
  predicate Echoes(p: ProcessedEmail, e: Email)
  {
    p.id == e.id && p.from == e.from && p.subject == e.subject &&
    p.body == e.body && p.timestamp == e.timestamp
  }
}
