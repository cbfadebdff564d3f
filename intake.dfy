/**
 * The tenant intake assistant: a chat that answers frequent questions and walks a
 * tenant through a maintenance report (name, unit, contact, description), flags the
 * report as urgent from keywords in its description and then starts over.
 *
 * `Advance` is the transition of the assistant on one input; the class
 * `PropertyAssistant` holds the component's state and updates it in place, and its
 * methods are proved to follow `Advance`.
 */
module Intake {
  import opened Wrappers
  import opened Text

  // ---------------------------------------------------------------------------
  // Canned texts
  // ---------------------------------------------------------------------------

  const PAY_RENT_ANSWER := "Rent can be paid online at [property manager URL] or dropped off at the leasing office during business hours."
  const PET_POLICY_ANSWER := "We allow pets with approval. Please check your lease or contact us for any breed restrictions or fees."
  const EMERGENCY_ANSWER := "Emergencies include no heat, major leaks, flooding, broken locks, and fire hazards. For emergencies, please call [emergency phone number] immediately."
  const OFFICE_HOURS_ANSWER := "Our office hours are Monday through Friday, 9am to 5pm."
  const MAINTENANCE_REQUEST_ANSWER := "You can submit requests right here or through your tenant portal at [property manager portal URL]."

  /** Words whose presence in a description (in any case) makes the report urgent. */
  const URGENT_KEYWORDS: seq<string> :=
    ["leak", "flood", "flooding", "no heat", "broken lock", "fire", "emergency", "urgent", "water damage", "electrical"]

  const GREETING := "Hello! I'm here to help with your property management needs. How can I assist you today?"
  const GREETING_OPTIONS: seq<string> := ["I have a question", "I need to report a maintenance issue"]
  const ASK_QUESTION := "What question can I help you with?"
  const ASK_NAME := "I'll help you report that maintenance issue. First, what's your full name?"
  const ASK_UNIT := "Thank you. What's your unit number or property address?"
  const ASK_CONTACT := "What's the best phone number or email to reach you?"
  const ASK_DESCRIPTION := "Please describe what's happening and where the problem is located."
  const URGENT_ACK := "Thank you. We've flagged this as urgent and will escalate it right away."
  const ROUTINE_ACK := "Thanks for letting us know. We'll review and follow up during normal business hours."
  const FORWARD_TEXT := "Thanks for your question! We'll forward this to the property manager and they will follow up with you shortly."
  const ANYTHING_ELSE := "Is there anything else I can help you with?"
  const FOLLOW_UP_OPTIONS: seq<string> := ["I have another question", "I need to report a maintenance issue"]
  const ANYTHING_ELSE_TODAY := "Is there anything else I can help you with today?"
  const AFTER_REPORT_OPTIONS: seq<string> := ["I have another question", "I need to report another issue"]

  // ---------------------------------------------------------------------------
  // Data model
  // ---------------------------------------------------------------------------

  /** Which conversation the assistant is in. */
  datatype Flow = Initial | Faq | Maintenance | CollectingInfo

  datatype Role = User | Assistant

  /**
   * A chat entry: a text bubble, or the options entry added after a reply (a bubble whose
   * content is the options list serialised as JSON text).
   */
  datatype Message = Bubble(role: Role, content: string) | Options(options: seq<string>)

  /** A maintenance report while it is being collected: every field may still be missing. */
  datatype PartialRequest = PartialRequest(
    tenantName: Option<string>,
    unitNumber: Option<string>,
    contactInfo: Option<string>,
    description: Option<string>,
    isUrgent: Option<bool>)

  const EMPTY_REQUEST := PartialRequest(None, None, None, None, None)

  /** A finished maintenance report. */
  datatype MaintenanceRequest = MaintenanceRequest(
    tenantName: string,
    unitNumber: string,
    contactInfo: string,
    description: string,
    isUrgent: bool)

  /** The textual field collected at maintenance step `k` (name, unit, contact, description). */
  function Field(d: PartialRequest, k: nat): Option<string> {
    if k == 0 then d.tenantName
    else if k == 1 then d.unitNumber
    else if k == 2 then d.contactInfo
    else if k == 3 then d.description
    else None
  }

  /** A report whose every field is present. */
  predicate IsWhole(d: PartialRequest) {
    d.tenantName.Some? && d.unitNumber.Some? && d.contactInfo.Some? && d.description.Some? && d.isUrgent.Some?
  }

  function ToRequest(d: PartialRequest): (r: MaintenanceRequest)
    requires IsWhole(d)
    ensures Some(r.tenantName) == d.tenantName && Some(r.unitNumber) == d.unitNumber
    ensures Some(r.contactInfo) == d.contactInfo && Some(r.description) == d.description
    ensures Some(r.isUrgent) == d.isUrgent
  {
    MaintenanceRequest(d.tenantName.value, d.unitNumber.value, d.contactInfo.value, d.description.value, d.isUrgent.value)
  }

  // ---------------------------------------------------------------------------
  // Frequent questions
  // ---------------------------------------------------------------------------

  /** Routes a question to a canned answer by keywords, first matching rule wins. */
  function CheckForFAQ(userInput: string): Option<string> {
    var input := ToLower(userInput);
    if Contains(input, "pay") && Contains(input, "rent") then Some(PAY_RENT_ANSWER)
    else if Contains(input, "pet") then Some(PET_POLICY_ANSWER)
    else if Contains(input, "emergency") || Contains(input, "urgent") then Some(EMERGENCY_ANSWER)
    else if Contains(input, "office") && Contains(input, "hours") then Some(OFFICE_HOURS_ANSWER)
    else if Contains(input, "maintenance") && Contains(input, "request") then Some(MAINTENANCE_REQUEST_ANSWER)
    else None
  }

  /** When a rule fires: on every one of its words, or on any one of them. */
  datatype Trigger = AllOf(words: seq<string>) | AnyOf(words: seq<string>)

  datatype FaqRule = FaqRule(trigger: Trigger, answer: string)

  predicate Fires(t: Trigger, text: string) {
    match t
    case AllOf(ws) => forall i :: 0 <= i < |ws| ==> Contains(text, ws[i])
    case AnyOf(ws) => exists i :: 0 <= i < |ws| && Contains(text, ws[i])
  }

  /** The frequent-question table as ordered rules over the lower-cased input. */
  const FAQ_RULES: seq<FaqRule> := [
    FaqRule(AllOf(["pay", "rent"]), PAY_RENT_ANSWER),
    FaqRule(AnyOf(["pet"]), PET_POLICY_ANSWER),
    FaqRule(AnyOf(["emergency", "urgent"]), EMERGENCY_ANSWER),
    FaqRule(AllOf(["office", "hours"]), OFFICE_HOURS_ANSWER),
    FaqRule(AllOf(["maintenance", "request"]), MAINTENANCE_REQUEST_ANSWER)
  ]

  /** The answer of the first rule that fires on `text`; none when no rule fires. */
  function FirstMatch(rules: seq<FaqRule>, text: string): (r: Option<string>)
    ensures r.None? <==> forall i :: 0 <= i < |rules| ==> !Fires(rules[i].trigger, text)
    ensures r.Some? ==>
      exists i :: 0 <= i < |rules| && Fires(rules[i].trigger, text) && r.value == rules[i].answer
        && forall j :: 0 <= j < i ==> !Fires(rules[j].trigger, text)
  {
    if rules == [] then None
    else if Fires(rules[0].trigger, text) then Some(rules[0].answer)
    else
      var r := FirstMatch(rules[1..], text);
      assert forall i :: 1 <= i < |rules| ==> rules[i] == rules[1..][i - 1];
      r
  }

  /** Consulting a rule list: the head rule if it fires, else the rest. */
  lemma FirstMatchCons(rule: FaqRule, rest: seq<FaqRule>, text: string)
    ensures FirstMatch([rule] + rest, text) ==
      if Fires(rule.trigger, text) then Some(rule.answer) else FirstMatch(rest, text)
  {
    assert ([rule] + rest)[0] == rule && ([rule] + rest)[1..] == rest;
  }

  lemma FiresOnBoth(a: string, b: string, text: string)
    ensures Fires(AllOf([a, b]), text) <==> Contains(text, a) && Contains(text, b)
  {
    assert [a, b][0] == a && [a, b][1] == b;
  }

  lemma FiresOnEither(a: string, b: string, text: string)
    ensures Fires(AnyOf([a, b]), text) <==> Contains(text, a) || Contains(text, b)
  {
    assert [a, b][0] == a && [a, b][1] == b;
  }

  lemma FiresOnWord(a: string, text: string)
    ensures Fires(AnyOf([a]), text) <==> Contains(text, a)
  {
    assert [a][0] == a;
  }

  /** The keyword chain of `CheckForFAQ` is the ordered rule table applied to the lower-cased input. */
  lemma CheckForFAQFollowsRuleTable(userInput: string)
    ensures CheckForFAQ(userInput) == FirstMatch(FAQ_RULES, ToLower(userInput))
  {
    var input := ToLower(userInput);
    var r0, r1, r2, r3, r4 := FAQ_RULES[0], FAQ_RULES[1], FAQ_RULES[2], FAQ_RULES[3], FAQ_RULES[4];
    assert FAQ_RULES == [r0] + ([r1] + ([r2] + ([r3] + ([r4] + []))));
    FirstMatchCons(r0, [r1] + ([r2] + ([r3] + ([r4] + []))), input);
    FirstMatchCons(r1, [r2] + ([r3] + ([r4] + [])), input);
    FirstMatchCons(r2, [r3] + ([r4] + []), input);
    FirstMatchCons(r3, [r4] + [], input);
    FirstMatchCons(r4, [], input);
    FiresOnBoth("pay", "rent", input);
    FiresOnWord("pet", input);
    FiresOnEither("emergency", "urgent", input);
    FiresOnBoth("office", "hours", input);
    FiresOnBoth("maintenance", "request", input);
  }

  /** Frequent-question routing ignores letter case. */
  lemma CheckForFAQIgnoresCase(userInput: string)
    ensures CheckForFAQ(ToLower(userInput)) == CheckForFAQ(userInput)
  {
    ToLowerIdempotent(userInput);
  }

  /** The assistant's answer to a question: the canned answer, or the promise to forward it. */
  function AnswerOrForward(userInput: string): (answer: string)
    ensures answer == FORWARD_TEXT <==> CheckForFAQ(userInput).None?
    ensures CheckForFAQ(userInput).Some? ==> answer == CheckForFAQ(userInput).value
  {
    match CheckForFAQ(userInput)
    case Some(a) => a
    case None => FORWARD_TEXT
  }

  // ---------------------------------------------------------------------------
  // Urgency
  // ---------------------------------------------------------------------------

  /** Whether some keyword occurs in `text` (the `some` over the keyword list). */
  function AnyKeyword(text: string, keywords: seq<string>): (r: bool)
    ensures r <==> exists i :: 0 <= i < |keywords| && Contains(text, keywords[i])
  {
    if keywords == [] then false
    else
      var r := Contains(text, keywords[0]) || AnyKeyword(text, keywords[1..]);
      assert forall i :: 1 <= i < |keywords| ==> keywords[i] == keywords[1..][i - 1];
      r
  }

  /** A description is urgent when its lower-cased text contains an urgent keyword. */
  function IsUrgentMaintenance(description: string): bool {
    AnyKeyword(ToLower(description), URGENT_KEYWORDS)
  }

  /** Urgency does not depend on letter case. */
  lemma UrgencyIgnoresCase(description: string)
    ensures IsUrgentMaintenance(ToLower(description)) == IsUrgentMaintenance(description)
  {
    ToLowerIdempotent(description);
  }

  /** Adding text around an urgent description never makes it non-urgent. */
  lemma UrgencySurvivesMoreText(description: string, before: string, after: string)
    requires IsUrgentMaintenance(description)
    ensures IsUrgentMaintenance(before + description + after)
  {
    var text := ToLower(description);
    var i :| 0 <= i < |URGENT_KEYWORDS| && Contains(text, URGENT_KEYWORDS[i]);
    ContainsInContext(text, URGENT_KEYWORDS[i], ToLower(before), ToLower(after));
    ToLowerAppend(before, description);
    ToLowerAppend(before + description, after);
  }

  /** A description containing an urgent keyword, in any case, is urgent. */
  lemma KeywordMakesUrgent(description: string, i: nat)
    requires i < |URGENT_KEYWORDS|
    requires Contains(ToLower(description), URGENT_KEYWORDS[i])
    ensures IsUrgentMaintenance(description)
  {
  }

  // ---------------------------------------------------------------------------
  // The notification e-mail
  // ---------------------------------------------------------------------------

  function UrgencyLabel(isUrgent: bool): string {
    if isUrgent then "URGENT" else "NON-URGENT"
  }

  function SubjectLine(r: MaintenanceRequest): string {
    "Subject: [" + UrgencyLabel(r.isUrgent) + "] Maintenance Request from " + r.tenantName
  }

  function NameLine(r: MaintenanceRequest): string { "\n\nTenant Name: " + r.tenantName }
  function UnitLine(r: MaintenanceRequest): string { "\nUnit/Property: " + r.unitNumber + "\n" }
  function ContactLine(r: MaintenanceRequest): string { "Contact Information: " + r.contactInfo }
  function PriorityLine(r: MaintenanceRequest): string { "\nPriority: " + UrgencyLabel(r.isUrgent) + "\n" }
  function IssueLines(r: MaintenanceRequest): string { "\nIssue Description:\n" + r.description + "\n" }
  const CLOSING := "\nSubmitted via Property Assistant on"

  /** The e-mail text up to and including "... on", before the submission time. */
  function EmailHead(r: MaintenanceRequest): string {
    SubjectLine(r) + (NameLine(r) + (UnitLine(r) + (ContactLine(r) + (PriorityLine(r) + (IssueLines(r) + CLOSING)))))
  }

  /**
   * The e-mail for a report: the template literal, trimmed. `submittedAt` stands for
   * the local time text the source reads from the clock.
   */
  function GenerateMaintenanceEmail(r: MaintenanceRequest, submittedAt: string): string {
    Trim("\n" + (EmailHead(r) + (" " + submittedAt + "\n    ")))
  }

  /** The e-mail head begins with the "S" of "Subject" and ends with the "n" of "on". */
  lemma EmailHeadEnds(r: MaintenanceRequest)
    ensures EmailHead(r) != [] && EmailHead(r)[0] == 'S' && EmailHead(r)[|EmailHead(r)| - 1] == 'n'
  {
    assert EmailHead(r)[0] == SubjectLine(r)[0];
  }

  /** A line break before a non-blank start is all that `trimStart` removes. */
  lemma TrimStartAfterLineBreak(x: string)
    requires x != [] && !IsWhitespace(x[0])
    ensures TrimStart("\n" + x) == x
  {
    assert ("\n" + x)[1..] == x;
  }

  /** Trimming the e-mail template removes only its first line break and whitespace after the time. */
  lemma EmailShape(r: MaintenanceRequest, submittedAt: string)
    ensures GenerateMaintenanceEmail(r, submittedAt) == EmailHead(r) + TrimEnd(" " + submittedAt)
  {
    var head, tail := EmailHead(r), " " + submittedAt + "\n    ";
    calc {
      GenerateMaintenanceEmail(r, submittedAt);
      TrimEnd(TrimStart("\n" + (head + tail)));
      { EmailHeadEnds(r); TrimStartAfterLineBreak(head + tail); }
      TrimEnd(head + tail);
      { EmailHeadEnds(r); TrimEndAfter(head, tail); }
      head + TrimEnd(tail);
      { TrimEndDropsBlankTail(" " + submittedAt, "\n    "); }
      head + TrimEnd(" " + submittedAt);
    }
  }

  /** The subject line opens with the bracketed urgency label. */
  lemma SubjectLineOpening(r: MaintenanceRequest)
    ensures |SubjectLine(r)| >= 21 && SubjectLine(r)[10] == UrgencyLabel(r.isUrgent)[0]
    ensures r.isUrgent ==> SubjectLine(r)[..17] == "Subject: [URGENT]"
    ensures !r.isUrgent ==> SubjectLine(r)[..21] == "Subject: [NON-URGENT]"
  {
    var tag := UrgencyLabel(r.isUrgent);
    assert SubjectLine(r)[..10 + |tag|] == "Subject: [" + tag;
  }

  /** The e-mail, as `EmailShape` describes it, opens with its subject line. */
  lemma ShapedEmailOpensWithSubject(r: MaintenanceRequest, submittedAt: string)
    ensures var email := EmailHead(r) + TrimEnd(" " + submittedAt);
      |email| >= 21 && email[..21] == SubjectLine(r)[..21]
  {
    SubjectLineOpening(r);
    var rest := NameLine(r) + (UnitLine(r) + (ContactLine(r) + (PriorityLine(r) + (IssueLines(r) + CLOSING))));
    assert EmailHead(r) + TrimEnd(" " + submittedAt) == SubjectLine(r) + (rest + TrimEnd(" " + submittedAt));
  }

  /** The subject tag of the e-mail, as `EmailShape` describes it. */
  lemma ShapedEmailSubject(r: MaintenanceRequest, submittedAt: string)
    ensures var email := EmailHead(r) + TrimEnd(" " + submittedAt);
      (|email| >= 17 && email[..17] == "Subject: [URGENT]") <==> r.isUrgent
    ensures var email := EmailHead(r) + TrimEnd(" " + submittedAt);
      !r.isUrgent ==> |email| >= 21 && email[..21] == "Subject: [NON-URGENT]"
  {
    ShapedEmailOpensWithSubject(r, submittedAt);
    SubjectLineOpening(r);
    var email := EmailHead(r) + TrimEnd(" " + submittedAt);
    assert email[..17] == SubjectLine(r)[..17];
    if !r.isUrgent {
      assert email[..17][10] == 'N';
    }
  }

  /** The subject is tagged "[URGENT]" exactly for urgent reports, and "[NON-URGENT]" otherwise. */
  lemma EmailSubjectTellsUrgency(r: MaintenanceRequest, submittedAt: string)
    ensures var email := GenerateMaintenanceEmail(r, submittedAt);
      (|email| >= 17 && email[..17] == "Subject: [URGENT]") <==> r.isUrgent
    ensures var email := GenerateMaintenanceEmail(r, submittedAt);
      !r.isUrgent ==> |email| >= 21 && email[..21] == "Subject: [NON-URGENT]"
  {
    EmailShape(r, submittedAt);
    ShapedEmailSubject(r, submittedAt);
  }

  /** The e-mail, as `EmailShape` describes it, holds each line of the report. */
  lemma ShapedEmailCarriesReport(r: MaintenanceRequest, submittedAt: string)
    ensures var email := EmailHead(r) + TrimEnd(" " + submittedAt);
      Contains(email, PriorityLine(r)) && Contains(email, UnitLine(r))
      && Contains(email, ContactLine(r)) && Contains(email, IssueLines(r))
  {
    var a, b, c, d, e, f := SubjectLine(r), NameLine(r), UnitLine(r), ContactLine(r), PriorityLine(r), IssueLines(r);
    var t := TrimEnd(" " + submittedAt);
    var sf := f + CLOSING;
    var se := e + sf;
    var sd := d + se;
    var sc := c + sd;
    var sb := b + sc;
    var sa := a + sb;
    assert sa == EmailHead(r);
    ContainsSelf(f);
    ContainsBeforeSuffix(f, f, CLOSING);
    ContainsAfterPrefix(sf, f, e);
    ContainsAfterPrefix(se, f, d);
    ContainsAfterPrefix(sd, f, c);
    ContainsAfterPrefix(sc, f, b);
    ContainsAfterPrefix(sb, f, a);
    ContainsBeforeSuffix(sa, f, t);
    ContainsSelf(e);
    ContainsBeforeSuffix(e, e, sf);
    ContainsAfterPrefix(se, e, d);
    ContainsAfterPrefix(sd, e, c);
    ContainsAfterPrefix(sc, e, b);
    ContainsAfterPrefix(sb, e, a);
    ContainsBeforeSuffix(sa, e, t);
    ContainsSelf(d);
    ContainsBeforeSuffix(d, d, se);
    ContainsAfterPrefix(sd, d, c);
    ContainsAfterPrefix(sc, d, b);
    ContainsAfterPrefix(sb, d, a);
    ContainsBeforeSuffix(sa, d, t);
    ContainsSelf(c);
    ContainsBeforeSuffix(c, c, sd);
    ContainsAfterPrefix(sc, c, b);
    ContainsAfterPrefix(sb, c, a);
    ContainsBeforeSuffix(sa, c, t);
  }

  /**
   * The e-mail for a report completed by its description is tagged "[URGENT]" exactly
   * when the assistant acknowledged the report as urgent.
   */
  lemma CompletedReportEmailMatchesAck(s: AssistantState, userInput: string, submittedAt: string)
    requires Consistent(s) && s.flow == Maintenance && s.step == 3
    ensures var t := Advance(s, userInput);
      && t.submitted.Some? && IsWhole(t.submitted.value)
      && var email := GenerateMaintenanceEmail(ToRequest(t.submitted.value), submittedAt);
      ((|email| >= 17 && email[..17] == "Subject: [URGENT]") <==> t.replies[0] == Say(URGENT_ACK))
  {
    DescriptionCompletesReport(s, userInput);
    var t := Advance(s, userInput);
    EmailSubjectTellsUrgency(ToRequest(t.submitted.value), submittedAt);
  }

  /** The e-mail carries the priority line and the unit, contact and description of the report. */
  lemma EmailCarriesReport(r: MaintenanceRequest, submittedAt: string)
    ensures var email := GenerateMaintenanceEmail(r, submittedAt);
      Contains(email, PriorityLine(r)) && Contains(email, UnitLine(r))
      && Contains(email, ContactLine(r)) && Contains(email, IssueLines(r))
  {
    EmailShape(r, submittedAt);
    ShapedEmailCarriesReport(r, submittedAt);
  }

  // ---------------------------------------------------------------------------
  // The conversation
  // ---------------------------------------------------------------------------

  /** The component's conversation state: the flow, the maintenance step and the report so far. */
  datatype AssistantState = AssistantState(flow: Flow, step: nat, data: PartialRequest)

  /** Where every conversation begins and every completed report returns to. */
  const START := AssistantState(Initial, 0, EMPTY_REQUEST)

  /** The effect of one input: the next state, the assistant's replies and the report handed on, if any. */
  datatype Turn = Turn(next: AssistantState, replies: seq<Message>, submitted: Option<PartialRequest>)

  function Say(content: string): Message {
    Bubble(Assistant, content)
  }

  /**
   * What every reachable state satisfies: outside a maintenance report the step is 0 and
   * nothing is collected; in one at step `k` exactly the first `k` fields are present.
   */
  predicate Consistent(s: AssistantState) {
    s.step <= 3
    && (s.flow != Maintenance ==> s.step == 0 && s.data == EMPTY_REQUEST)
    && (s.flow == Maintenance ==>
          (s.data.tenantName.Some? <==> s.step >= 1)
          && (s.data.unitNumber.Some? <==> s.step >= 2)
          && (s.data.contactInfo.Some? <==> s.step >= 3)
          && s.data.description.None? && s.data.isUrgent.None?)
  }

  /** One maintenance step: store the answer to the current question and ask the next one. */
  function MaintenanceStep(s: AssistantState, userInput: string): Turn {
    if s.step == 0 then
      Turn(s.(step := 1, data := s.data.(tenantName := Some(userInput))), [Say(ASK_UNIT)], None)
    else if s.step == 1 then
      Turn(s.(step := 2, data := s.data.(unitNumber := Some(userInput))), [Say(ASK_CONTACT)], None)
    else if s.step == 2 then
      Turn(s.(step := 3, data := s.data.(contactInfo := Some(userInput))), [Say(ASK_DESCRIPTION)], None)
    else if s.step == 3 then
      var isUrgent := IsUrgentMaintenance(userInput);
      var completed := s.data.(description := Some(userInput), isUrgent := Some(isUrgent));
      Turn(START,
           [Say(if isUrgent then URGENT_ACK else ROUTINE_ACK), Say(ANYTHING_ELSE_TODAY), Options(AFTER_REPORT_OPTIONS)],
           Some(completed))
    else
      Turn(s, [], None)
  }

  /** The assistant's transition on one user input. */
  function Advance(s: AssistantState, userInput: string): Turn {
    match s.flow
    case Initial =>
      var input := ToLower(userInput);
      if Contains(input, "question") then
        Turn(s.(flow := Faq), [Say(ASK_QUESTION)], None)
      else if Contains(input, "maintenance") || Contains(input, "issue") then
        Turn(s.(flow := Maintenance, step := 0), [Say(ASK_NAME)], None)
      else
        Turn(s, [Say(AnswerOrForward(userInput)), Say(ANYTHING_ELSE), Options(FOLLOW_UP_OPTIONS)], None)
    case Faq =>
      Turn(s.(flow := Initial), [Say(AnswerOrForward(userInput)), Say(ANYTHING_ELSE), Options(FOLLOW_UP_OPTIONS)], None)
    case Maintenance =>
      MaintenanceStep(s, userInput)
    case CollectingInfo =>
      Turn(s, [], None)
  }

  /** Every transition keeps the state consistent. */
  lemma AdvanceKeepsConsistent(s: AssistantState, userInput: string)
    requires Consistent(s)
    ensures Consistent(Advance(s, userInput).next)
  {
  }

  /** The `collecting_info` flow is never entered from any other flow. */
  lemma CollectingInfoNeverEntered(s: AssistantState, userInput: string)
    requires s.flow != CollectingInfo
    ensures Advance(s, userInput).next.flow != CollectingInfo
  {
  }

  /** In `collecting_info` an input changes nothing and gets no reply. */
  lemma CollectingInfoIsInert(s: AssistantState, userInput: string)
    requires s.flow == CollectingInfo
    ensures Advance(s, userInput) == Turn(s, [], None)
  {
  }

  /**
   * Routing from the initial flow: "question" wins over "maintenance"/"issue", which start
   * a report at step 0; anything else stays initial and is answered or forwarded.
   */
  lemma InitialRouting(s: AssistantState, userInput: string)
    requires s.flow == Initial
    ensures var t := Advance(s, userInput); var input := ToLower(userInput);
      && (t.next.flow == Faq <==> Contains(input, "question"))
      && (t.next.flow == Maintenance <==>
            !Contains(input, "question") && (Contains(input, "maintenance") || Contains(input, "issue")))
      && (t.next.flow == Maintenance ==> t.next.step == 0 && t.replies == [Say(ASK_NAME)])
      && (t.next.flow == Initial ==> t.next == s && t.replies[0] == Say(AnswerOrForward(userInput)))
      && t.submitted.None?
  {
  }

  /** In the question flow every input gets exactly one answer, then the flow is initial again. */
  lemma FaqAnswersOnceThenReturns(s: AssistantState, userInput: string)
    requires s.flow == Faq
    ensures var t := Advance(s, userInput);
      && t.next.flow == Initial && t.next.step == s.step && t.next.data == s.data
      && |t.replies| == 3 && t.replies[2] == Options(FOLLOW_UP_OPTIONS)
      && (CheckForFAQ(userInput).Some? ==> t.replies[0] == Say(CheckForFAQ(userInput).value))
      && (CheckForFAQ(userInput).None? ==> t.replies[0] == Say(FORWARD_TEXT))
  {
  }

  /**
   * Name, unit and contact are collected in order: each stores the input verbatim in
   * exactly one field, moves on by exactly one step and leaves the other fields as they were.
   */
  lemma CollectionStepStoresOneField(s: AssistantState, userInput: string)
    requires s.flow == Maintenance && s.step < 3
    ensures var t := Advance(s, userInput);
      && t.next.flow == Maintenance && t.next.step == s.step + 1
      && Field(t.next.data, s.step) == Some(userInput)
      && (forall k :: k != s.step ==> Field(t.next.data, k) == Field(s.data, k))
      && t.next.data.isUrgent == s.data.isUrgent
      && t.submitted.None? && |t.replies| == 1
  {
  }

  /**
   * The description completes the report: the collected name, unit and contact are kept,
   * the description is the input, urgency comes from its keywords, the acknowledgement
   * speaks of urgency exactly when the report is urgent, and the assistant starts over.
   */
  lemma DescriptionCompletesReport(s: AssistantState, userInput: string)
    requires Consistent(s) && s.flow == Maintenance && s.step == 3
    ensures var t := Advance(s, userInput);
      && t.submitted.Some? && IsWhole(t.submitted.value)
      && t.submitted.value.tenantName == s.data.tenantName
      && t.submitted.value.unitNumber == s.data.unitNumber
      && t.submitted.value.contactInfo == s.data.contactInfo
      && t.submitted.value.description == Some(userInput)
      && t.submitted.value.isUrgent == Some(IsUrgentMaintenance(userInput))
      && (t.replies[0] == Say(URGENT_ACK) <==> IsUrgentMaintenance(userInput))
      && t.next == START
  {
  }

  /** The record of a conversation: final state, every message in order and the reports handed on. */
  datatype Transcript = Transcript(final: AssistantState, messages: seq<Message>, reports: seq<PartialRequest>)

  /** Feeds the inputs to the assistant one after the other, the user's bubble before each reply. */
  function Run(s: AssistantState, inputs: seq<string>): Transcript
    decreases |inputs|
  {
    if inputs == [] then Transcript(s, [], [])
    else
      var t := Advance(s, inputs[0]);
      var rest := Run(t.next, inputs[1..]);
      Transcript(rest.final,
                 [Bubble(User, inputs[0])] + t.replies + rest.messages,
                 (if t.submitted.Some? then [t.submitted.value] else []) + rest.reports)
  }

  /**
   * A whole report from the start: an opening that asks for maintenance, then name, unit,
   * contact and description, hands on exactly one report holding those four answers and
   * the urgency of the description, and leaves the assistant where it began.
   */
  lemma {:induction false} ReportFromStart(opening: string, name: string, unit: string, contact: string, description: string)
    requires !Contains(ToLower(opening), "question")
    requires Contains(ToLower(opening), "maintenance") || Contains(ToLower(opening), "issue")
    ensures var run := Run(START, [opening, name, unit, contact, description]);
      && run.final == START
      && run.reports == [PartialRequest(Some(name), Some(unit), Some(contact), Some(description),
                                         Some(IsUrgentMaintenance(description)))]
  {
    var s1 := AssistantState(Maintenance, 0, EMPTY_REQUEST);
    var s2 := AssistantState(Maintenance, 1, EMPTY_REQUEST.(tenantName := Some(name)));
    var s3 := AssistantState(Maintenance, 2, s2.data.(unitNumber := Some(unit)));
    var s4 := AssistantState(Maintenance, 3, s3.data.(contactInfo := Some(contact)));
    var report := PartialRequest(Some(name), Some(unit), Some(contact), Some(description), Some(IsUrgentMaintenance(description)));
    var run5 := Run(s4, [description]);
    assert Advance(s4, description).submitted == Some(report);
    assert Advance(s4, description).next == START;
    assert [description][1..] == [];
    assert Run(START, []) == Transcript(START, [], []);
    assert run5.final == START && run5.reports == [report];
    var run4 := Run(s3, [contact, description]);
    assert [contact, description][1..] == [description];
    assert run4.final == START && run4.reports == [report];
    var run3 := Run(s2, [unit, contact, description]);
    assert [unit, contact, description][1..] == [contact, description];
    assert run3.final == START && run3.reports == [report];
    var run2 := Run(s1, [name, unit, contact, description]);
    assert [name, unit, contact, description][1..] == [unit, contact, description];
    assert run2.final == START && run2.reports == [report];
    assert [opening, name, unit, contact, description][1..] == [name, unit, contact, description];
    assert Advance(START, opening).next == s1;
  }

  // ---------------------------------------------------------------------------
  // The component
  // ---------------------------------------------------------------------------

  /** The assistant component: its message list, its text box and its conversation state. */
  class PropertyAssistant {
    var messages: seq<Message>
    var input: string
    var flow: Flow
    var step: nat
    var data: PartialRequest

    function State(): AssistantState
      reads this
    {
      AssistantState(flow, step, data)
    }

    predicate Valid()
      reads this
    {
      Consistent(State())
    }

    /** Mounting the component: the greeting and its two quick replies, an empty text box. */
    constructor ()
      ensures Valid() && State() == START && input == ""
      ensures messages == [Say(GREETING), Options(GREETING_OPTIONS)]
    {
      messages := [Say(GREETING), Options(GREETING_OPTIONS)];
      input := "";
      flow, step, data := Initial, 0, EMPTY_REQUEST;
    }

    /** Typing in the text box. */
    method Edit(text: string)
      modifies this`input
      ensures input == text
    {
      input := text;
    }

    /** Appends an assistant reply and, when options are given, its options entry. */
    method AddAssistantMessage(content: string, options: seq<string>)
      modifies this`messages
      ensures messages == old(messages) + [Say(content)] + (if options == [] then [] else [Options(options)])
    {
      messages := messages + [Say(content)];
      if options != [] {
        messages := messages + [Options(options)];
      }
    }

    /** One maintenance step on the component's state. */
    method HandleMaintenanceFlow(userInput: string) returns (submitted: Option<PartialRequest>)
      requires Valid() && flow == Maintenance
      modifies this
      ensures Valid()
      ensures var t := MaintenanceStep(old(State()), userInput);
        State() == t.next && messages == old(messages) + t.replies && submitted == t.submitted
      ensures input == old(input)
    {
      submitted := None;
      if step == 0 {
        data := data.(tenantName := Some(userInput));
        AddAssistantMessage(ASK_UNIT, []);
        step := 1;
      } else if step == 1 {
        data := data.(unitNumber := Some(userInput));
        AddAssistantMessage(ASK_CONTACT, []);
        step := 2;
      } else if step == 2 {
        data := data.(contactInfo := Some(userInput));
        AddAssistantMessage(ASK_DESCRIPTION, []);
        step := 3;
      } else if step == 3 {
        var isUrgent := IsUrgentMaintenance(userInput);
        var completed := data.(description := Some(userInput), isUrgent := Some(isUrgent));
        data := completed;
        AddAssistantMessage(if isUrgent then URGENT_ACK else ROUTINE_ACK, []);
        submitted := Some(completed);
        AddAssistantMessage(ANYTHING_ELSE_TODAY, AFTER_REPORT_OPTIONS);
        flow := Initial;
        step := 0;
        data := EMPTY_REQUEST;
      }
    }

    /** The user's bubble, then the assistant's transition on it. */
    method HandleUserInput(userInput: string) returns (submitted: Option<PartialRequest>)
      requires Valid()
      modifies this
      ensures Valid()
      ensures var t := Advance(old(State()), userInput);
        State() == t.next && messages == old(messages) + [Bubble(User, userInput)] + t.replies
        && submitted == t.submitted
      ensures input == old(input)
    {
      messages := messages + [Bubble(User, userInput)];
      submitted := None;
      if flow == Initial {
        if Contains(ToLower(userInput), "question") {
          flow := Faq;
          AddAssistantMessage(ASK_QUESTION, []);
        } else if Contains(ToLower(userInput), "maintenance") || Contains(ToLower(userInput), "issue") {
          flow := Maintenance;
          step := 0;
          AddAssistantMessage(ASK_NAME, []);
        } else {
          var faqResponse := CheckForFAQ(userInput);
          if faqResponse.Some? {
            AddAssistantMessage(faqResponse.value, []);
          } else {
            AddAssistantMessage(FORWARD_TEXT, []);
          }
          AddAssistantMessage(ANYTHING_ELSE, FOLLOW_UP_OPTIONS);
        }
      } else if flow == Faq {
        var faqResponse := CheckForFAQ(userInput);
        if faqResponse.Some? {
          AddAssistantMessage(faqResponse.value, []);
        } else {
          AddAssistantMessage(FORWARD_TEXT, []);
        }
        AddAssistantMessage(ANYTHING_ELSE, FOLLOW_UP_OPTIONS);
        flow := Initial;
      } else if flow == Maintenance {
        submitted := HandleMaintenanceFlow(userInput);
      }
    }

    /** The option-click handler: handles the option's text as input, with no blank check. */
    method ClickOption(option: string) returns (submitted: Option<PartialRequest>)
      requires Valid()
      modifies this
      ensures Valid()
      ensures var t := Advance(old(State()), option);
        State() == t.next && messages == old(messages) + [Bubble(User, option)] + t.replies
        && submitted == t.submitted
      ensures input == old(input)
    {
      submitted := HandleUserInput(option);
    }

    /**
     * Submitting the form: text that is blank after trimming is ignored; otherwise the
     * untrimmed text is handled and the text box is cleared.
     */
    method Submit() returns (submitted: Option<PartialRequest>)
      requires Valid()
      modifies this
      ensures Valid()
      ensures IsBlank(old(input)) ==> unchanged(this) && submitted.None?
      ensures !IsBlank(old(input)) ==>
        var t := Advance(old(State()), old(input));
        && State() == t.next && messages == old(messages) + [Bubble(User, old(input))] + t.replies
        && submitted == t.submitted && input == ""
    {
      submitted := None;
      TrimEmptyIffBlank(input);
      if Trim(input) != "" {
        submitted := HandleUserInput(input);
        input := "";
      }
    }
  }
}
