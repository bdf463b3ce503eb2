/** Concrete messages run through the rule classifier. */
module RuleExamples {
  import opened Wrappers
  import opened Text
  import opened Emails
  import opened RuleClassifier

  /** A body with both an inquiry keyword and a complaint keyword: the
      inquiry rule, tried first, wins. */
  lemma InquiryBeforeComplaint(e: Email)
    requires Contains(e.body, "طلب") && Contains(e.body, "شكوى")
    ensures var r := SimulateAIProcessing(e);
      r.category == "استفسارات" && r.priority == PriorityLabel(Medium) &&
      r.action == ActionLabel(AutoReply) && r.response == Some(InquiryReply(e.subject))
  {
    InquiryOnRawText(e);
  }

  /** A question in the subject and an inquiry in the body. */
  lemma QuestionIsInquiry(e: Email)
    requires e.body == "عندي استفسار عن الخدمة" && e.subject == "سؤال"
    ensures var r := SimulateAIProcessing(e);
      r.category == "استفسارات" && r.priority == PriorityLabel(Medium) &&
      r.action == ActionLabel(AutoReply) && r.response == Some(InquiryReply("سؤال"))
  {
    var subject := Lower(e.subject);
    assert subject == e.subject;
    ContainsAt(subject, "سؤال", 0);
    assert ClassifyEmail(e) == Inquiries;
  }

  /** The lower-cased text "urgent" with an empty subject falls under the urgent rule. */
  lemma LowerUrgentIsUrgent(body: string, subject: string)
    requires body == "urgent" && subject == ""
    ensures Classify(body, subject) == UrgentMatters
  {
    MissingChar(body, "طلب", 0);
    MissingChar(body, "استفسار", 0);
    MissingChar(subject, "سؤال", 0);
    MissingChar(body, "شكوى", 0);
    MissingChar(body, "مشكلة", 0);
    MissingChar(body, "خطأ", 0);
    ContainsAt(body, "urgent", 0);
  }

  /** An upper-case "URGENT" is caught by the urgent rule. */
  lemma UpperCaseUrgent(e: Email)
    requires e.body == "URGENT" && e.subject == ""
    ensures var r := SimulateAIProcessing(e);
      r.category == "عاجل" && r.priority == PriorityLabel(Urgent) &&
      r.action == ActionLabel(NeedsReview) && r.response == Some(UrgentReply)
  {
    assert Lower(e.body) == "urgent" && Lower(e.subject) == "";
    LowerUrgentIsUrgent(Lower(e.body), Lower(e.subject));
  }

  /** The lower-cased text "عرض" ("offer") with an empty subject falls under
      the marketing rule. */
  lemma OfferIsMarketing(body: string, subject: string)
    requires body == "عرض" && subject == ""
    ensures Classify(body, subject) == Marketing
  {
    MissingChar(body, "طلب", 0);
    MissingChar(body, "استفسار", 0);
    MissingChar(subject, "سؤال", 0);
    MissingChar(body, "شكوى", 0);
    MissingChar(body, "مشكلة", 0);
    MissingChar(body, "خطأ", 0);
    MissingChar(body, "عاجل", 1);
    MissingChar(body, "urgent", 0);
    MissingChar(body, "ضروري", 2);
    MissingChar(body, "فاتورة", 0);
    MissingChar(body, "دفع", 0);
    MissingChar(body, "مالي", 0);
    ContainsAt(body, "عرض", 0);
  }

  /** An offer is ignored and gets no reply. */
  lemma OfferIgnored(e: Email)
    requires e.body == "عرض" && e.subject == ""
    ensures var r := SimulateAIProcessing(e);
      r.category == "تسويق" && r.priority == PriorityLabel(Low) &&
      r.action == ActionLabel(Ignore) && r.response == None
  {
    assert Lower(e.body) == e.body && Lower(e.subject) == "";
    OfferIsMarketing(Lower(e.body), Lower(e.subject));
  }

  // The sentence "هذا عرض تسويقي رائع" ("this is a great marketing offer"),
  // split at its middle space into "هذا عرض" and "تسويقي رائع". No keyword
  // contains a space, so a keyword occurs in the sentence only within one of
  // the two halves (`MissingCharEachSide`).

  /** The sentence has no inquiry keyword. */
  lemma SentenceLacksInquiry(a: string, b: string)
    requires a == "هذا عرض" && b == "تسويقي رائع"
    ensures var body := a + [' '] + b;
      !Contains(body, "طلب") && !Contains(body, "استفسار")
  {
    MissingCharEachSide(a, ' ', b, "طلب", 0, 0);
    MissingCharEachSide(a, ' ', b, "استفسار", 1, 3);
  }

  /** The sentence has no complaint keyword. */
  lemma SentenceLacksComplaint(a: string, b: string)
    requires a == "هذا عرض" && b == "تسويقي رائع"
    ensures var body := a + [' '] + b;
      !Contains(body, "شكوى") && !Contains(body, "مشكلة") && !Contains(body, "خطأ")
  {
    MissingCharEachSide(a, ' ', b, "شكوى", 0, 0);
    MissingCharEachSide(a, ' ', b, "مشكلة", 0, 0);
    MissingCharEachSide(a, ' ', b, "خطأ", 0, 0);
  }

  /** The sentence has no urgency keyword; for "ضروري" each half lacks a
      different letter of it. */
  lemma SentenceLacksUrgency(a: string, b: string)
    requires a == "هذا عرض" && b == "تسويقي رائع"
    ensures var body := a + [' '] + b;
      !Contains(body, "عاجل") && !Contains(body, "urgent") && !Contains(body, "ضروري")
  {
    MissingCharEachSide(a, ' ', b, "عاجل", 2, 2);
    MissingCharEachSide(a, ' ', b, "urgent", 0, 0);
    MissingCharEachSide(a, ' ', b, "ضروري", 2, 0);
  }

  /** The sentence has no financial keyword. */
  lemma SentenceLacksFinance(a: string, b: string)
    requires a == "هذا عرض" && b == "تسويقي رائع"
    ensures var body := a + [' '] + b;
      !Contains(body, "فاتورة") && !Contains(body, "دفع") && !Contains(body, "مالي")
  {
    MissingCharEachSide(a, ' ', b, "فاتورة", 0, 0);
    MissingCharEachSide(a, ' ', b, "دفع", 0, 0);
    MissingCharEachSide(a, ' ', b, "مالي", 0, 0);
  }

  /** The sentence, with an empty subject, misses the first four rules and
      falls under the marketing rule. */
  lemma SentenceIsMarketing(a: string, b: string, subject: string)
    requires a == "هذا عرض" && b == "تسويقي رائع" && subject == ""
    ensures Classify(a + [' '] + b, subject) == Marketing
  {
    SentenceLacksInquiry(a, b);
    SentenceLacksComplaint(a, b);
    SentenceLacksUrgency(a, b);
    SentenceLacksFinance(a, b);
    MissingChar(subject, "سؤال", 0);
    ContainsAt(a + [' '] + b, "تسويق", 8);
  }

  /** The sentence as an email body: ignored, with no reply. */
  lemma SentenceIgnored(e: Email, a: string, b: string)
    requires a == "هذا عرض" && b == "تسويقي رائع"
    requires e.body == a + [' '] + b && e.subject == ""
    ensures var r := SimulateAIProcessing(e);
      r.category == "تسويق" && r.priority == PriorityLabel(Low) &&
      r.action == ActionLabel(Ignore) && r.response == None
  {
    assert Lower(e.body) == e.body;
    assert Lower(e.subject) == "";
    SentenceIsMarketing(a, b, Lower(e.subject));
  }
}
