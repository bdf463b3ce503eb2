/** The rule classifier (`simulateAIProcessing`): an ordered chain of keyword
    tests over the lower-cased body and subject; the first rule whose test
    holds fixes the category, priority, action and reply template. */
module RuleClassifier {
  import opened Wrappers
  import opened Text
  import opened Emails

  /** The rules of the chain, in the order they are tried. */
  datatype Rule = Inquiries | Complaints | UrgentMatters | Financial | Marketing | PositiveFeedback | General

  /** The rule the chain picks for an already lower-cased body and subject:
      the first rule of the table whose test holds. */
  function Classify(body: string, subject: string): (r: Rule)
    ensures FirstToFire(r, body, subject)
  {
    FiresExplicit(body, subject);
    if Contains(body, "طلب") || Contains(body, "استفسار") || Contains(subject, "سؤال") then Inquiries
    else if Contains(body, "شكوى") || Contains(body, "مشكلة") || Contains(body, "خطأ") then Complaints
    else if Contains(body, "عاجل") || Contains(body, "urgent") || Contains(body, "ضروري") then UrgentMatters
    else if Contains(body, "فاتورة") || Contains(body, "دفع") || Contains(body, "مالي") then Financial
    else if Contains(body, "تسويق") || Contains(body, "إعلان") || Contains(body, "عرض") then Marketing
    else if Contains(body, "شكر") || Contains(body, "تقدير") then PositiveFeedback
    else General
  }

  /** The rule an email falls under: matching runs on the lower-cased texts. */
  function ClassifyEmail(e: Email): Rule
  {
    Classify(Lower(e.body), Lower(e.subject))
  }

  // ---------------------------------------------------------------------------
  // The rule table, stated independently of the chain: each rule's trigger
  // keywords and its position.

  /** Position of a rule in the chain; lower is tried first. */
  function Rank(r: Rule): nat
  {
    match r
    case Inquiries => 0
    case Complaints => 1
    case UrgentMatters => 2
    case Financial => 3
    case Marketing => 4
    case PositiveFeedback => 5
    case General => 6
  }

  /** The keywords a rule looks for in the body. */
  function BodyKeywords(r: Rule): seq<string>
  {
    match r
    case Inquiries => ["طلب", "استفسار"]
    case Complaints => ["شكوى", "مشكلة", "خطأ"]
    case UrgentMatters => ["عاجل", "urgent", "ضروري"]
    case Financial => ["فاتورة", "دفع", "مالي"]
    case Marketing => ["تسويق", "إعلان", "عرض"]
    case PositiveFeedback => ["شكر", "تقدير"]
    case General => []
  }

  /** The keywords a rule looks for in the subject: only the inquiry rule has one. */
  function SubjectKeywords(r: Rule): seq<string>
  {
    if r == Inquiries then ["سؤال"] else []
  }

  predicate ContainsAny(s: string, keys: seq<string>)
  {
    exists i :: 0 <= i < |keys| && Contains(s, keys[i])
  }

  /** The test of rule `r` holds; the general rule always holds. */
  predicate Fires(r: Rule, body: string, subject: string)
  {
    r == General || ContainsAny(body, BodyKeywords(r)) || ContainsAny(subject, SubjectKeywords(r))
  }

  /** Each rule's test, written out keyword by keyword. */
  lemma FiresExplicit(body: string, subject: string)
    ensures Fires(Inquiries, body, subject) <==>
      Contains(body, "طلب") || Contains(body, "استفسار") || Contains(subject, "سؤال")
    ensures Fires(Complaints, body, subject) <==>
      Contains(body, "شكوى") || Contains(body, "مشكلة") || Contains(body, "خطأ")
    ensures Fires(UrgentMatters, body, subject) <==>
      Contains(body, "عاجل") || Contains(body, "urgent") || Contains(body, "ضروري")
    ensures Fires(Financial, body, subject) <==>
      Contains(body, "فاتورة") || Contains(body, "دفع") || Contains(body, "مالي")
    ensures Fires(Marketing, body, subject) <==>
      Contains(body, "تسويق") || Contains(body, "إعلان") || Contains(body, "عرض")
    ensures Fires(PositiveFeedback, body, subject) <==>
      Contains(body, "شكر") || Contains(body, "تقدير")
  {
    forall r: Rule | r != General
      ensures ContainsAny(body, BodyKeywords(r)) <==>
        Contains(body, BodyKeywords(r)[0]) || Contains(body, BodyKeywords(r)[1]) ||
        (|BodyKeywords(r)| == 3 && Contains(body, BodyKeywords(r)[2]))
    {
      var keys := BodyKeywords(r);
      if ContainsAny(body, keys) {
        var i :| 0 <= i < |keys| && Contains(body, keys[i]);
        assert i == 0 || i == 1 || i == 2;
      }
    }
    var question := SubjectKeywords(Inquiries);
    if ContainsAny(subject, question) {
      var i :| 0 <= i < 1 && Contains(subject, question[i]);
      assert i == 0;
    }
    if Contains(subject, question[0]) {
      assert ContainsAny(subject, question);
    }
  }

  /** Rule `r`'s test holds and the test of every rule before it fails. */
  predicate FirstToFire(r: Rule, body: string, subject: string)
  {
    Fires(r, body, subject) && forall q: Rule :: Rank(q) < Rank(r) ==> !Fires(q, body, subject)
  }

  /** First match wins: the chain picks `r` exactly when `r`'s test holds and
      the test of every rule before it fails. */
  lemma FirstMatchWins(body: string, subject: string, r: Rule)
    ensures Classify(body, subject) == r <==> FirstToFire(r, body, subject)
  {
    var c := Classify(body, subject);
    if c != r {
      if Rank(c) < Rank(r) {
        assert !(forall q: Rule :: Rank(q) < Rank(r) ==> !Fires(q, body, subject));
      } else {
        assert Rank(r) < Rank(c);
      }
    }
  }

  // ---------------------------------------------------------------------------
  // What each rule decides.

  /** The opening and closing of the inquiry reply, around the original subject. */
  const InquiryOpening := "شكراً لتواصلك معنا بخصوص: "
  const InquiryClosing := ".\n\nتم استلام استفسارك وسيتم الرد عليك في أقرب وقت ممكن. فريقنا يعمل على مراجعة طلبك والإجابة على جميع أسئلتك.\n\nمع تحياتنا،\nفريق الدعم"
  const ComplaintReply := "عزيزي العميل،\n\nنعتذر عن أي إزعاج قد تسبب. تم تصنيف رسالتك كأولوية عاجلة وسيقوم فريق الدعم الفني بالتواصل معك خلال 24 ساعة لحل المشكلة.\n\nنقدر صبرك وتفهمك.\n\nمع تحياتنا،\nفريق الدعم"
  const UrgentReply := "تم استلام رسالتك العاجلة. سيتم التواصل معك في أقرب وقت ممكن من قبل أحد أعضاء فريقنا.\n\nشكراً لك."
  const FinancialReply := "شكراً لتواصلك معنا بخصوص الأمور المالية.\n\nتم استلام طلبك وسيقوم قسم المحاسبة بمراجعته والرد عليك خلال 48 ساعة.\n\nمع تحياتنا،\nقسم المحاسبة"
  const PraiseReply := "شكراً جزيلاً على كلماتك الطيبة!\n\nيسعدنا أن نكون قد لبينا توقعاتك. نحن دائماً في خدمتك.\n\nمع أطيب التحيات،\nفريق العمل"
  const GeneralReply := "شكراً لتواصلك معنا.\n\nتم استلام رسالتك وسيتم مراجعتها من قبل الفريق المختص.\n\nمع تحياتنا،\nفريق الدعم"

  /** The general category, also the model path's default. */
  const GeneralCategory := "عام"

  /** The inquiry reply for a subject, quoted as written (not lower-cased). */
  function InquiryReply(subject: string): string
  {
    InquiryOpening + subject + InquiryClosing
  }

  /** The fixed outcome of a rule; the reply text is the one the rule drafts
      (left empty by the marketing rule, which drafts none). */
  datatype Verdict = Verdict(category: string, priority: Priority, action: Action, reply: string)

  function RuleVerdict(r: Rule, subject: string): (v: Verdict)
    ensures v.category != ""
    ensures v.action == Ignore <==> r == Marketing
    ensures v.priority == Urgent <==> v.action == NeedsReview
    ensures v.priority == Urgent <==> r == Complaints || r == UrgentMatters
    ensures v.action != Ignore ==> v.reply != ""
  {
    match r
    case Inquiries => Verdict("استفسارات", Medium, AutoReply, InquiryReply(subject))
    case Complaints => Verdict("شكاوى", Urgent, NeedsReview, ComplaintReply)
    case UrgentMatters => Verdict("عاجل", Urgent, NeedsReview, UrgentReply)
    case Financial => Verdict("أمور مالية", Medium, AutoReply, FinancialReply)
    case Marketing => Verdict("تسويق", Low, Ignore, "")
    case PositiveFeedback => Verdict("ملاحظات إيجابية", Low, AutoReply, PraiseReply)
    case General => Verdict(GeneralCategory, Low, AutoReply, GeneralReply)
  }

  /** `simulateAIProcessing`: the email with the verdict of the rule it falls
      under; the reply is dropped when the action is to ignore. */
  function SimulateAIProcessing(e: Email): (r: ProcessedEmail)
    ensures Echoes(r, e) && r.category != ""
    ensures IsPriorityLabel(r.priority) && IsActionLabel(r.action)
    ensures r.response.None? <==> r.action == ActionLabel(Ignore)
  {
    var v := RuleVerdict(ClassifyEmail(e), e.subject);
    LabelsDistinct(Low, Low, v.action, Ignore);
    ProcessedEmail(e.id, e.from, e.subject, e.body, e.timestamp,
                   v.category, PriorityLabel(v.priority), ActionLabel(v.action),
                   if v.action == Ignore then None else Some(v.reply))
  }

  // ---------------------------------------------------------------------------
  // Properties of the rule classifier.

  /** Only the marketing rule ignores a message, and exactly then no reply is drafted. */
  lemma IgnoreOnlyForMarketing(e: Email)
    ensures SimulateAIProcessing(e).action == ActionLabel(Ignore) <==> ClassifyEmail(e) == Marketing
    ensures SimulateAIProcessing(e).response.None? <==> ClassifyEmail(e) == Marketing
  {
    LabelsDistinct(Low, Low, RuleVerdict(ClassifyEmail(e), e.subject).action, Ignore);
  }

  /** The subject is read only for the inquiry rule: a verdict other than
      "inquiries" is the one the body alone gives. */
  lemma {:induction false} OnlyInquiryReadsSubject(body: string, subject: string)
    requires Classify(body, subject) != Inquiries
    ensures Classify(body, subject) == Classify(body, "")
  {
    assert !Contains("", "سؤال");
  }

  /** Two emails with the same body that neither fall under the inquiry rule
      get the same category, priority, action and reply, whatever their subjects. */
  lemma SubjectOnlyMattersForInquiries(e1: Email, e2: Email)
    requires e1.body == e2.body
    requires ClassifyEmail(e1) != Inquiries && ClassifyEmail(e2) != Inquiries
    ensures var r1, r2 := SimulateAIProcessing(e1), SimulateAIProcessing(e2);
      r1.category == r2.category && r1.priority == r2.priority &&
      r1.action == r2.action && r1.response == r2.response
  {
    OnlyInquiryReadsSubject(Lower(e1.body), Lower(e1.subject));
    OnlyInquiryReadsSubject(Lower(e2.body), Lower(e2.subject));
  }

  /** The inquiry reply quotes the subject as written, not its lower-cased form. */
  lemma InquiryReplyQuotesSubject(e: Email)
    requires ClassifyEmail(e) == Inquiries
    ensures SimulateAIProcessing(e).response == Some(InquiryReply(e.subject))
    ensures Contains(SimulateAIProcessing(e).response.value, e.subject)
  {
    var reply := InquiryReply(e.subject);
    assert OccursAt(reply, e.subject, |InquiryOpening|) by {
      forall j | 0 <= j < |e.subject|
        ensures reply[|InquiryOpening| + j] == e.subject[j]
      {
        assert reply == InquiryOpening + (e.subject + InquiryClosing);
      }
    }
    ContainsAt(reply, e.subject, |InquiryOpening|);
  }

  /** When no rule's keyword is present, the general rule applies. */
  lemma NoKeywordMeansGeneral(e: Email)
    requires forall q: Rule :: q != General ==> !Fires(q, Lower(e.body), Lower(e.subject))
    ensures SimulateAIProcessing(e) == ProcessedEmail(
      e.id, e.from, e.subject, e.body, e.timestamp,
      GeneralCategory, PriorityLabel(Low), ActionLabel(AutoReply), Some(GeneralReply))
  {
    FirstMatchWins(Lower(e.body), Lower(e.subject), General);
  }

  /** An email with an empty body and subject gets the general verdict. */
  lemma EmptyEmailIsGeneral(e: Email)
    requires e.body == "" && e.subject == ""
    ensures SimulateAIProcessing(e).category == GeneralCategory
    ensures SimulateAIProcessing(e).priority == PriorityLabel(Low)
    ensures SimulateAIProcessing(e).action == ActionLabel(AutoReply)
    ensures SimulateAIProcessing(e).response == Some(GeneralReply)
  {
    forall q: Rule | q != General
      ensures !Fires(q, Lower(e.body), Lower(e.subject))
    {
      FiresExplicit(Lower(e.body), Lower(e.subject));
    }
    NoKeywordMeansGeneral(e);
  }

  /** "urgent" is found in any casing: a body containing a mixed-case spelling
      of it is never triaged below the urgent rule. */
  lemma UrgentInAnyCase(e: Email, k: string)
    requires Lower(k) == "urgent" && Contains(e.body, k)
    ensures Rank(ClassifyEmail(e)) <= Rank(UrgentMatters)
    ensures SimulateAIProcessing(e).priority != PriorityLabel(Low)
  {
    ContainsLower(e.body, k);
    FiresExplicit(Lower(e.body), Lower(e.subject));
    FirstMatchWins(Lower(e.body), Lower(e.subject), ClassifyEmail(e));
    LabelsDistinct(RuleVerdict(ClassifyEmail(e), e.subject).priority, Low, AutoReply, AutoReply);
  }

  /** The inquiry rule on the texts as written: its keywords have no letters
      with case, so lower-casing neither adds nor removes a match. */
  lemma InquiryOnRawText(e: Email)
    ensures ClassifyEmail(e) == Inquiries <==>
      Contains(e.body, "طلب") || Contains(e.body, "استفسار") || Contains(e.subject, "سؤال")
  {
    ContainsLowerCaseless(e.body, "طلب");
    ContainsLowerCaseless(e.body, "استفسار");
    ContainsLowerCaseless(e.subject, "سؤال");
  }

  /** Every verdict other than the inquiry one is constant: the subject plays
      no part in it. */
  lemma NonInquiryVerdictConstant(r: Rule, s1: string, s2: string)
    requires r != Inquiries
    ensures RuleVerdict(r, s1) == RuleVerdict(r, s2)
  {
  }

  /** Two emails under the same rule other than "inquiries" get the same
      category, priority, action and reply. */
  lemma SameRuleSameOutcome(e1: Email, e2: Email)
    requires ClassifyEmail(e1) == ClassifyEmail(e2) != Inquiries
    ensures var r1, r2 := SimulateAIProcessing(e1), SimulateAIProcessing(e2);
      r1.category == r2.category && r1.priority == r2.priority &&
      r1.action == r2.action && r1.response == r2.response
  {
    NonInquiryVerdictConstant(ClassifyEmail(e1), e1.subject, e2.subject);
  }
}
