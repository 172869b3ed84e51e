/**
 * The approval router: decisions are auto-approved by rule, or routed to the
 * best-scoring eligible approvers (plus an escalation contact), and their
 * final status follows the approvers' individual answers. Times are in
 * seconds; the current hour and the current time are parameters.
 */
module Approvals {
  import opened Wrappers

  datatype DecisionType = Financial | Strategic | Operational | Security | Compliance

  /** The enum value an approver's expertise areas are matched against. */
  function TypeValue(t: DecisionType): string
  {
    match t
    case Financial => "financial"
    case Strategic => "strategic"
    case Operational => "operational"
    case Security => "security"
    case Compliance => "compliance"
  }

  datatype Urgency = Low | Medium | High | Critical

  datatype ApprovalStatus = Pending | Approved | Rejected | Escalated | AutoApproved

  /** `approvalAuthority` maps a decision type to the largest impact the approver may sign off. */
  datatype Approver = Approver(
    name: string,
    email: string,
    role: string,
    expertiseAreas: seq<string>,
    approvalAuthority: map<DecisionType, real>,
    availabilityHours: seq<int>)

  /** Free-form context is not part of the model. */
  datatype Decision = Decision(
    id: string,
    decisionType: DecisionType,
    title: string,
    description: string,
    urgency: Urgency,
    financialImpact: real,
    riskScore: real,
    createdAt: int,
    requiredApprovers: seq<string>,
    approvals: map<string, ApprovalStatus>,
    finalStatus: ApprovalStatus,
    autoApproved: bool)

  /** One recorded answer; the decision is represented by its type. */
  datatype ApprovalHistory = ApprovalHistory(
    decisionType: DecisionType,
    approver: string,
    status: ApprovalStatus,
    responseTime: int,
    contextViewed: bool,
    feedback: Option<string>)

  /** What calling a rule callable ends in. */
  datatype RuleOutcome<T> = Returned(value: T) | Threw

  /** The two example auto-approval rules, a rule with a fixed answer, and a rule that raises. */
  datatype AutoApprovalRule = LowRiskAutoApprove | RoutineOperationalAutoApprove | FixedAnswer(answer: bool) | FailingAutoRule

  /** The two example escalation rules, a rule with a fixed answer, and a rule that raises. */
  datatype EscalationRule = HighValueEscalation | HighRiskEscalation | FixedContact(contact: Option<string>) | FailingEscalation

  datatype ApprovalError = DecisionNotFound(decisionId: string) | ApproverNotAssigned(approverEmail: string)

  // ---------------------------------------------------------------------
  // Rules
  // ---------------------------------------------------------------------

  function RunAutoRule(rule: AutoApprovalRule, d: Decision): RuleOutcome<bool>
  {
    match rule
    case LowRiskAutoApprove =>
      Returned(d.financialImpact < 1000.0 && d.riskScore < 0.3 && d.urgency != Critical)
    case RoutineOperationalAutoApprove =>
      Returned(d.decisionType == Operational && d.financialImpact < 5000.0 && d.riskScore < 0.5)
    case FixedAnswer(answer) => Returned(answer)
    case FailingAutoRule => Threw
  }

  predicate Approves(rule: AutoApprovalRule, d: Decision)
  {
    RunAutoRule(rule, d) == Returned(true)
  }

  /** Some rule returns true; rules that raise are skipped. */
  function AutoApproves(rules: seq<AutoApprovalRule>, d: Decision): (r: bool)
    ensures r <==> exists i :: 0 <= i < |rules| && Approves(rules[i], d)
  {
    if rules == [] then false
    else
      var tail := AutoApproves(rules[1..], d);
      assert forall i :: 1 <= i < |rules| ==> rules[i] == rules[1..][i - 1];
      assert tail ==> exists i :: 1 <= i < |rules| && Approves(rules[i], d);
      Approves(rules[0], d) || tail
  }

  function RunEscalationRule(rule: EscalationRule, d: Decision): RuleOutcome<Option<string>>
  {
    match rule
    case HighValueEscalation => Returned(if d.financialImpact > 100000.0 then Some("ceo@company.com") else None)
    case HighRiskEscalation => Returned(if d.riskScore > 0.8 then Some("risk-manager@company.com") else None)
    case FixedContact(contact) => Returned(contact)
    case FailingEscalation => Threw
  }

  /** The rule returned a non-empty email (an empty string is falsy). */
  predicate Escalates(rule: EscalationRule, d: Decision)
  {
    var o := RunEscalationRule(rule, d);
    o.Returned? && o.value.Some? && o.value.value != ""
  }

  /** The email of the first rule that escalates; rules that raise are skipped. */
  function FirstEscalation(rules: seq<EscalationRule>, d: Decision): (r: Option<string>)
    ensures r.None? <==> forall i :: 0 <= i < |rules| ==> !Escalates(rules[i], d)
    ensures r.Some? ==>
              (r.value != "" &&
               exists i :: 0 <= i < |rules| && Escalates(rules[i], d) &&
                           RunEscalationRule(rules[i], d) == Returned(Some(r.value)) &&
                           forall j :: 0 <= j < i ==> !Escalates(rules[j], d))
  {
    if rules == [] then None
    else if Escalates(rules[0], d) then RunEscalationRule(rules[0], d).value
    else
      var r := FirstEscalation(rules[1..], d);
      assert forall i :: 1 <= i < |rules| ==> rules[i] == rules[1..][i - 1];
      if r.Some? then
        ghost var i :| 0 <= i < |rules[1..]| && Escalates(rules[1..][i], d) &&
                       RunEscalationRule(rules[1..][i], d) == Returned(Some(r.value)) &&
                       forall j :: 0 <= j < i ==> !Escalates(rules[1..][j], d);
        assert rules[i + 1] == rules[1..][i];
        assert forall j :: 0 <= j < i + 1 ==> !Escalates(rules[j], d) by {
          forall j | 0 <= j < i + 1 ensures !Escalates(rules[j], d) {
            if j > 0 {
              assert rules[j] == rules[1..][j - 1];
            }
          }
        }
        r
      else r
  }

  // ---------------------------------------------------------------------
  // Final status
  // ---------------------------------------------------------------------

  /**
   * All approved (also when nobody is assigned) wins; otherwise any rejection;
   * otherwise, once nobody is pending, the mixed answers escalate; otherwise
   * the decision is still pending.
   */
  function DecisionStatus(approvals: map<string, ApprovalStatus>): (s: ApprovalStatus)
    ensures s == Approved <==> forall e :: e in approvals ==> approvals[e] == Approved
    ensures s == Rejected <==>
              (exists e :: e in approvals && approvals[e] != Approved) &&
              (exists e :: e in approvals && approvals[e] == Rejected)
    ensures s == Escalated <==>
              (exists e :: e in approvals && approvals[e] != Approved) &&
              (forall e :: e in approvals ==> approvals[e] != Rejected && approvals[e] != Pending)
    ensures s == Pending <==>
              (forall e :: e in approvals ==> approvals[e] != Rejected) &&
              (exists e :: e in approvals && approvals[e] == Pending)
    ensures s != AutoApproved
  {
    if forall e :: e in approvals ==> approvals[e] == Approved then Approved
    else if exists e :: e in approvals && approvals[e] == Rejected then Rejected
    else if forall e :: e in approvals ==> approvals[e] != Pending then Escalated
    else Pending
  }

  /** A rejection by one approver stands whatever another approver answers. */
  lemma RejectionStands(approvals: map<string, ApprovalStatus>, rejecter: string, e: string, s: ApprovalStatus)
    requires rejecter in approvals && approvals[rejecter] == Rejected && rejecter != e
    ensures DecisionStatus(approvals[e := s]) == Rejected
  {
    var updated := approvals[e := s];
    assert rejecter in updated && updated[rejecter] == Rejected;
  }

  /** The last outstanding approval completes the decision. */
  lemma LastApprovalCompletes(approvals: map<string, ApprovalStatus>, e: string)
    requires forall other :: other in approvals && other != e ==> approvals[other] == Approved
    ensures DecisionStatus(approvals[e := Approved]) == Approved
  {
  }

  // ---------------------------------------------------------------------
  // Learning from history
  // ---------------------------------------------------------------------

  /** The answers of `email` on decisions of type `t`, in order. */
  function RelevantHistory(history: seq<ApprovalHistory>, email: string, t: DecisionType): (r: seq<ApprovalHistory>)
    ensures forall h :: h in r <==> h in history && h.approver == email && h.decisionType == t
  {
    if history == [] then []
    else
      var h := history[|history| - 1];
      RelevantHistory(history[..|history| - 1], email, t) + (if h.approver == email && h.decisionType == t then [h] else [])
  }

  /** The answers of `email`, in order. */
  function AnswersOf(history: seq<ApprovalHistory>, email: string): (r: seq<ApprovalHistory>)
    ensures forall h :: h in r <==> h in history && h.approver == email
  {
    if history == [] then []
    else
      var h := history[|history| - 1];
      AnswersOf(history[..|history| - 1], email) + (if h.approver == email then [h] else [])
  }

  function TotalResponse(hs: seq<ApprovalHistory>): int
  {
    if hs == [] then 0 else TotalResponse(hs[..|hs| - 1]) + hs[|hs| - 1].responseTime
  }

  function ApprovedCount(hs: seq<ApprovalHistory>): (n: nat)
    ensures n <= |hs|
  {
    if hs == [] then 0 else ApprovedCount(hs[..|hs| - 1]) + (if hs[|hs| - 1].status == Approved then 1 else 0)
  }

  function ViewedCount(hs: seq<ApprovalHistory>): (n: nat)
    ensures n <= |hs|
  {
    if hs == [] then 0 else ViewedCount(hs[..|hs| - 1]) + (if hs[|hs| - 1].contextViewed then 1 else 0)
  }

  /**
   * max(0, 5 - mean response hours), plus 2 when the approval rate lies
   * strictly between 0.3 and 0.9; 0 without relevant history.
   */
  function HistoricalPerformanceScore(history: seq<ApprovalHistory>, email: string, t: DecisionType): (r: real)
    ensures RelevantHistory(history, email, t) == [] ==> r == 0.0
    ensures r >= 0.0
  {
    var relevant := RelevantHistory(history, email, t);
    if relevant == [] then 0.0
    else
      var n := |relevant| as real;
      TimeScore(TotalResponse(relevant) as real / n) + ApprovalScore(ApprovedCount(relevant) as real / n)
  }

  /** max(0, 5 - mean response hours): never negative, and at most 5 for a non-negative mean. */
  function TimeScore(avgResponse: real): (r: real)
    ensures r >= 0.0
    ensures avgResponse >= 0.0 ==> r <= 5.0
  {
    if 5.0 - avgResponse / 3600.0 > 0.0 then 5.0 - avgResponse / 3600.0 else 0.0
  }

  /** 2 for an approval rate strictly between 0.3 and 0.9, else 0. */
  function ApprovalScore(rate: real): real
  {
    if 0.3 < rate < 0.9 then 2.0 else 0.0
  }

  lemma {:induction false} TotalResponseNonNegative(hs: seq<ApprovalHistory>)
    requires forall h :: h in hs ==> h.responseTime >= 0
    ensures TotalResponse(hs) >= 0
  {
    if hs != [] {
      var init := hs[..|hs| - 1];
      InitMembers(hs);
      TotalResponseNonNegative(init);
      assert hs[|hs| - 1] in hs;
    }
  }

  /** With non-negative response times the score is at most 5 + 2, and 7 needs instant answers. */
  lemma HistoricalScoreBounded(history: seq<ApprovalHistory>, email: string, t: DecisionType)
    requires forall h :: h in history ==> h.responseTime >= 0
    ensures HistoricalPerformanceScore(history, email, t) <= 7.0
  {
    var relevant := RelevantHistory(history, email, t);
    if relevant != [] {
      MeanResponseNonNegative(relevant);
    }
  }

  lemma MeanResponseNonNegative(hs: seq<ApprovalHistory>)
    requires hs != [] && forall h :: h in hs ==> h.responseTime >= 0
    ensures TotalResponse(hs) as real / |hs| as real >= 0.0
  {
    TotalResponseNonNegative(hs);
  }

  /**
   * The detail level an approver prefers: 1 without history, else 2 when
   * they viewed the context in more than 70% of their answers, 1 above 30%,
   * 0 otherwise.
   */
  function PreferredDetailLevel(history: seq<ApprovalHistory>, email: string): (level: nat)
    ensures AnswersOf(history, email) == [] ==> level == 1
    ensures AnswersOf(history, email) != [] ==>
              var rate := ViewedCount(AnswersOf(history, email)) as real / |AnswersOf(history, email)| as real;
              (level == 2 <==> rate > 0.7) && (level == 1 <==> 0.3 < rate <= 0.7) && (level == 0 <==> rate <= 0.3)
  {
    var answers := AnswersOf(history, email);
    if answers == [] then 1
    else
      var viewRate := ViewedCount(answers) as real / |answers| as real;
      if viewRate > 0.7 then 2 else if viewRate > 0.3 then 1 else 0
  }

  // ---------------------------------------------------------------------
  // Approver selection
  // ---------------------------------------------------------------------

  function Authority(a: Approver, t: DecisionType): real
  {
    if t in a.approvalAuthority then a.approvalAuthority[t] else 0.0
  }

  /** Has expertise in the decision's type and authority for its financial impact. */
  predicate Eligible(a: Approver, d: Decision)
  {
    TypeValue(d.decisionType) in a.expertiseAreas && d.financialImpact <= Authority(a, d.decisionType)
  }

  /** 10 when available this hour, 5 for the expertise match, plus the historical score. */
  function ApproverScore(a: Approver, history: seq<ApprovalHistory>, d: Decision, currentHour: int): real
  {
    (if currentHour in a.availabilityHours then 10.0 else 0.0) + 5.0 +
    HistoricalPerformanceScore(history, a.email, d.decisionType)
  }

  datatype Candidate = Candidate(score: real, approver: Approver)

  /** The eligible approvers with their scores, in registration order. */
  function Candidates(approvers: seq<Approver>, history: seq<ApprovalHistory>, d: Decision, currentHour: int): (r: seq<Candidate>)
    ensures forall c :: c in r <==>
              c.approver in approvers && Eligible(c.approver, d) &&
              c.score == ApproverScore(c.approver, history, d, currentHour)
  {
    if approvers == [] then []
    else
      var a := approvers[|approvers| - 1];
      Candidates(approvers[..|approvers| - 1], history, d, currentHour) +
      (if Eligible(a, d) then [Candidate(ApproverScore(a, history, d, currentHour), a)] else [])
  }

  ghost predicate SortedByScore(s: seq<Candidate>)
  {
    forall i, j :: 0 <= i < j < |s| ==> s[i].score >= s[j].score
  }

  /** Puts `c` after every element scoring at least as much: a stable descending insertion. */
  function InsertByScore(c: Candidate, s: seq<Candidate>): (r: seq<Candidate>)
    ensures multiset(r) == multiset(s) + multiset{c}
  {
    if s == [] then [c]
    else if s[0].score >= c.score then
      assert s == [s[0]] + s[1..];
      [s[0]] + InsertByScore(c, s[1..])
    else [c] + s
  }

  lemma {:induction false} InsertKeepsSorted(c: Candidate, s: seq<Candidate>)
    requires SortedByScore(s)
    ensures SortedByScore(InsertByScore(c, s))
  {
    if s == [] {
    } else if s[0].score >= c.score {
      var tail := s[1..];
      SortedTail(s);
      InsertKeepsSorted(c, tail);
      var rest := InsertByScore(c, tail);
      forall x | x in rest
        ensures x.score <= s[0].score
      {
        assert x in multiset(rest);
        if x != c {
          assert x in multiset(tail);
        }
      }
      SortedCons(s[0], rest);
    } else {
      SortedCons(c, s);
    }
  }

  lemma SortedTail(s: seq<Candidate>)
    requires SortedByScore(s) && s != []
    ensures SortedByScore(s[1..])
    ensures forall x :: x in s[1..] ==> x.score <= s[0].score
  {
    var tail := s[1..];
    forall i, j | 0 <= i < j < |tail|
      ensures tail[i].score >= tail[j].score
    {
      assert tail[i] == s[i + 1] && tail[j] == s[j + 1];
    }
    forall x | x in tail
      ensures x.score <= s[0].score
    {
      var j :| 0 <= j < |tail| && tail[j] == x;
      assert s[j + 1] == x;
    }
  }

  lemma SortedCons(h: Candidate, rest: seq<Candidate>)
    requires SortedByScore(rest)
    requires forall x :: x in rest ==> x.score <= h.score
    ensures SortedByScore([h] + rest)
  {
    var r := [h] + rest;
    forall i, j | 0 <= i < j < |r|
      ensures r[i].score >= r[j].score
    {
      assert r[j] == rest[j - 1] && rest[j - 1] in rest;
      if i > 0 {
        assert r[i] == rest[i - 1];
      }
    }
  }

  /** The candidates sorted by descending score, ties in their original order. */
  function SortByScore(cs: seq<Candidate>): (r: seq<Candidate>)
    ensures multiset(r) == multiset(cs)
  {
    if cs == [] then []
    else
      assert cs == cs[..|cs| - 1] + [cs[|cs| - 1]];
      InsertByScore(cs[|cs| - 1], SortByScore(cs[..|cs| - 1]))
  }

  lemma {:induction false} SortIsSorted(cs: seq<Candidate>)
    ensures SortedByScore(SortByScore(cs))
  {
    if cs != [] {
      SortIsSorted(cs[..|cs| - 1]);
      InsertKeepsSorted(cs[|cs| - 1], SortByScore(cs[..|cs| - 1]));
    }
  }

  function Emails(approvers: seq<Approver>): (r: seq<string>)
    ensures |r| == |approvers|
    ensures forall i :: 0 <= i < |approvers| ==> r[i] == approvers[i].email
  {
    seq(|approvers|, i requires 0 <= i < |approvers| => approvers[i].email)
  }

  /** How many approvers a decision of this urgency gets: one when CRITICAL, else two. */
  function SelectionSize(u: Urgency): nat
  {
    if u == Critical then 1 else 2
  }

  /** The approvers of the first `k` candidates. */
  function TopApprovers(sorted: seq<Candidate>, k: nat): (r: seq<Approver>)
    requires k <= |sorted|
    ensures |r| == k
    ensures forall i :: 0 <= i < k ==> r[i] == sorted[i].approver
  {
    seq(k, i requires 0 <= i < k => sorted[i].approver)
  }

  /** The approvers of the first `k` sorted candidates. */
  method TakeTop(sorted: seq<Candidate>, k: nat) returns (top: seq<Approver>)
    requires k <= |sorted|
    ensures top == TopApprovers(sorted, k)
  {
    top := [];
    for i := 0 to k
      invariant |top| == i
      invariant forall j :: 0 <= j < i ==> top[j] == sorted[j].approver
    {
      top := top + [sorted[i].approver];
    }
  }

  /** The best-scoring eligible approvers, at most `SelectionSize` of them. */
  function SelectedApprovers(approvers: seq<Approver>, history: seq<ApprovalHistory>, d: Decision, currentHour: int): seq<Approver>
  {
    var sorted := SortByScore(Candidates(approvers, history, d, currentHour));
    TopApprovers(sorted, if |sorted| < SelectionSize(d.urgency) then |sorted| else SelectionSize(d.urgency))
  }

  /** The i-th selected approver is the i-th sorted candidate, registered and eligible. */
  lemma SelectedAreSortedCandidates(approvers: seq<Approver>, history: seq<ApprovalHistory>, d: Decision, currentHour: int,
                                    selected: seq<Approver>, i: nat)
    requires selected == SelectedApprovers(approvers, history, d, currentHour)
    requires i < |selected|
    ensures i < |SortByScore(Candidates(approvers, history, d, currentHour))|
    ensures SortByScore(Candidates(approvers, history, d, currentHour))[i] ==
            Candidate(ApproverScore(selected[i], history, d, currentHour), selected[i])
    ensures selected[i] in approvers && Eligible(selected[i], d)
  {
    var cs := Candidates(approvers, history, d, currentHour);
    var sorted := SortByScore(cs);
    assert sorted[i] in multiset(cs);
  }

  /** An eligible approver's candidate appears somewhere in the sorted candidates. */
  lemma EligibleIsSorted(approvers: seq<Approver>, history: seq<ApprovalHistory>, d: Decision, currentHour: int, a: Approver)
    returns (j: nat)
    requires a in approvers && Eligible(a, d)
    ensures j < |SortByScore(Candidates(approvers, history, d, currentHour))|
    ensures SortByScore(Candidates(approvers, history, d, currentHour))[j] ==
            Candidate(ApproverScore(a, history, d, currentHour), a)
  {
    var cs := Candidates(approvers, history, d, currentHour);
    var c := Candidate(ApproverScore(a, history, d, currentHour), a);
    assert c in multiset(cs);
    assert c in SortByScore(cs);
    j :| 0 <= j < |SortByScore(cs)| && SortByScore(cs)[j] == c;
  }

  /** A candidate whose approver is not among the first ones lies past them. */
  lemma OutsidePrefix(selected: seq<Approver>, sorted: seq<Candidate>, j: nat)
    requires |selected| <= |sorted| && j < |sorted|
    requires forall t :: 0 <= t < |selected| ==> selected[t] == sorted[t].approver
    requires sorted[j].approver !in selected
    ensures j >= |selected|
  {
  }

  /**
   * The selection holds at most one approver for a CRITICAL decision and two
   * otherwise, each registered and eligible, best score first, and none when
   * nobody is eligible; every eligible approver left out scores no higher
   * than any selected one.
   */
  lemma SelectionIsTopK(approvers: seq<Approver>, history: seq<ApprovalHistory>, d: Decision, currentHour: int,
                        selected: seq<Approver>)
    requires selected == SelectedApprovers(approvers, history, d, currentHour)
    ensures |selected| <= SelectionSize(d.urgency)
    ensures forall a :: a in selected ==> a in approvers && Eligible(a, d)
    ensures forall i, j :: 0 <= i < j < |selected| ==>
              ApproverScore(selected[i], history, d, currentHour) >= ApproverScore(selected[j], history, d, currentHour)
    ensures forall a, b :: a in approvers && Eligible(a, d) && a !in selected && b in selected ==>
              ApproverScore(b, history, d, currentHour) >= ApproverScore(a, history, d, currentHour)
    ensures selected == [] <==> forall a :: a in approvers ==> !Eligible(a, d)
    ensures var n := |Candidates(approvers, history, d, currentHour)|;
            |selected| == (if n < SelectionSize(d.urgency) then n else SelectionSize(d.urgency))
  {
    SelectedCount(approvers, history, d, currentHour);
    SelectedInOrder(approvers, history, d, currentHour, selected);
    SelectedOutscoreOthers(approvers, history, d, currentHour, selected);
    SelectedUnlessNoneEligible(approvers, history, d, currentHour, selected);
  }

  /** As many approvers are selected as the selection size allows, or every candidate when there are fewer. */
  lemma SelectedCount(approvers: seq<Approver>, history: seq<ApprovalHistory>, d: Decision, currentHour: int)
    ensures var n := |Candidates(approvers, history, d, currentHour)|;
            |SelectedApprovers(approvers, history, d, currentHour)| ==
            (if n < SelectionSize(d.urgency) then n else SelectionSize(d.urgency))
  {
    var cs := Candidates(approvers, history, d, currentHour);
    assert |multiset(SortByScore(cs))| == |multiset(cs)|;
  }

  lemma SelectedInOrder(approvers: seq<Approver>, history: seq<ApprovalHistory>, d: Decision, currentHour: int,
                        selected: seq<Approver>)
    requires selected == SelectedApprovers(approvers, history, d, currentHour)
    ensures |selected| <= SelectionSize(d.urgency)
    ensures forall a :: a in selected ==> a in approvers && Eligible(a, d)
    ensures forall i, j :: 0 <= i < j < |selected| ==>
              ApproverScore(selected[i], history, d, currentHour) >= ApproverScore(selected[j], history, d, currentHour)
  {
    var sorted := SortByScore(Candidates(approvers, history, d, currentHour));
    SortIsSorted(Candidates(approvers, history, d, currentHour));
    forall i | 0 <= i < |selected|
      ensures selected[i] in approvers && Eligible(selected[i], d)
      ensures sorted[i].score == ApproverScore(selected[i], history, d, currentHour)
    {
      SelectedAreSortedCandidates(approvers, history, d, currentHour, selected, i);
    }
  }

  lemma SelectedOutscoreOthers(approvers: seq<Approver>, history: seq<ApprovalHistory>, d: Decision, currentHour: int,
                               selected: seq<Approver>)
    requires selected == SelectedApprovers(approvers, history, d, currentHour)
    ensures forall a, b :: a in approvers && Eligible(a, d) && a !in selected && b in selected ==>
              ApproverScore(b, history, d, currentHour) >= ApproverScore(a, history, d, currentHour)
  {
    var sorted := SortByScore(Candidates(approvers, history, d, currentHour));
    SortIsSorted(Candidates(approvers, history, d, currentHour));
    forall a, b | a in approvers && Eligible(a, d) && a !in selected && b in selected
      ensures ApproverScore(b, history, d, currentHour) >= ApproverScore(a, history, d, currentHour)
    {
      var j := EligibleIsSorted(approvers, history, d, currentHour, a);
      var i :| 0 <= i < |selected| && selected[i] == b;
      SelectedAreSortedCandidates(approvers, history, d, currentHour, selected, i);
      OutsidePrefix(selected, sorted, j);
    }
  }

  lemma SelectedUnlessNoneEligible(approvers: seq<Approver>, history: seq<ApprovalHistory>, d: Decision, currentHour: int,
                                   selected: seq<Approver>)
    requires selected == SelectedApprovers(approvers, history, d, currentHour)
    ensures selected == [] <==> forall a :: a in approvers ==> !Eligible(a, d)
  {
    if exists a :: a in approvers && Eligible(a, d) {
      var a :| a in approvers && Eligible(a, d);
      var j := EligibleIsSorted(approvers, history, d, currentHour, a);
    } else if selected != [] {
      SelectedAreSortedCandidates(approvers, history, d, currentHour, selected, 0);
    }
  }

  // ---------------------------------------------------------------------
  // Routing a request
  // ---------------------------------------------------------------------

  /** `approvals` with every one of `emails` set to PENDING. */
  function MarkPending(approvals: map<string, ApprovalStatus>, emails: seq<string>): (r: map<string, ApprovalStatus>)
    ensures r.Keys == approvals.Keys + set e | e in emails
    ensures forall e :: e in emails ==> r[e] == Pending
    ensures forall e :: e in approvals && e !in emails ==> r[e] == approvals[e]
  {
    if emails == [] then approvals
    else MarkPending(approvals, emails[..|emails| - 1])[emails[|emails| - 1] := Pending]
  }

  /** Sets every one of `emails` to PENDING, one at a time. */
  method MarkAll(approvals: map<string, ApprovalStatus>, emails: seq<string>) returns (marked: map<string, ApprovalStatus>)
    ensures marked == MarkPending(approvals, emails)
  {
    marked := approvals;
    for i := 0 to |emails|
      invariant marked == MarkPending(approvals, emails[..i])
    {
      assert emails[..i + 1][..i] == emails[..i];
      marked := marked[emails[i] := Pending];
    }
    assert emails[..|emails|] == emails;
  }


  /** The decision as `request_approval` stores and returns it. */
  function Routed(d: Decision, approvers: seq<Approver>, history: seq<ApprovalHistory>,
                  autoRules: seq<AutoApprovalRule>, escalationRules: seq<EscalationRule>, currentHour: int): Decision
  {
    if AutoApproves(autoRules, d) then d.(autoApproved := true, finalStatus := AutoApproved)
    else
      var emails := Emails(SelectedApprovers(approvers, history, d, currentHour));
      var routedTo := d.(requiredApprovers := emails, approvals := MarkPending(d.approvals, emails));
      match FirstEscalation(escalationRules, routedTo)
      case Some(contact) =>
        routedTo.(requiredApprovers := emails + [contact], approvals := routedTo.approvals[contact := Pending])
      case None => routedTo
  }

  /**
   * An auto-approved decision is flagged and marked AUTO_APPROVED; its
   * approver lists are left exactly as they came in.
   */
  lemma AutoApprovalShortCircuits(d: Decision, approvers: seq<Approver>, history: seq<ApprovalHistory>,
                                  autoRules: seq<AutoApprovalRule>, escalationRules: seq<EscalationRule>, currentHour: int)
    requires exists i :: 0 <= i < |autoRules| && Approves(autoRules[i], d)
    ensures Routed(d, approvers, history, autoRules, escalationRules, currentHour).autoApproved
    ensures Routed(d, approvers, history, autoRules, escalationRules, currentHour).finalStatus == AutoApproved
    ensures Routed(d, approvers, history, autoRules, escalationRules, currentHour).requiredApprovers == d.requiredApprovers
    ensures Routed(d, approvers, history, autoRules, escalationRules, currentHour).approvals == d.approvals
  {
  }

  /**
   * Without auto-approval every required approver is PENDING, the list is
   * the selected approvers plus at most the escalation contact, and the final
   * status is left as it was.
   */
  lemma ManualRoutingAssigns(d: Decision, approvers: seq<Approver>, history: seq<ApprovalHistory>,
                             autoRules: seq<AutoApprovalRule>, escalationRules: seq<EscalationRule>, currentHour: int)
    requires forall i :: 0 <= i < |autoRules| ==> !Approves(autoRules[i], d)
    ensures !AutoApproves(autoRules, d)
    ensures forall e :: e in Routed(d, approvers, history, autoRules, escalationRules, currentHour).requiredApprovers ==>
              e in Routed(d, approvers, history, autoRules, escalationRules, currentHour).approvals &&
              Routed(d, approvers, history, autoRules, escalationRules, currentHour).approvals[e] == Pending
    ensures |Routed(d, approvers, history, autoRules, escalationRules, currentHour).requiredApprovers|
            <= SelectionSize(d.urgency) + 1
    ensures Routed(d, approvers, history, autoRules, escalationRules, currentHour).requiredApprovers[..
              |SelectedApprovers(approvers, history, d, currentHour)|]
            == Emails(SelectedApprovers(approvers, history, d, currentHour))
    ensures Routed(d, approvers, history, autoRules, escalationRules, currentHour).finalStatus == d.finalStatus
    ensures Routed(d, approvers, history, autoRules, escalationRules, currentHour).autoApproved == d.autoApproved
  {
    SelectionIsTopK(approvers, history, d, currentHour, SelectedApprovers(approvers, history, d, currentHour));
    var emails := Emails(SelectedApprovers(approvers, history, d, currentHour));
    var routedTo := d.(requiredApprovers := emails, approvals := MarkPending(d.approvals, emails));
    match FirstEscalation(escalationRules, routedTo)
    case Some(contact) =>
      assert (emails + [contact])[..|emails|] == emails;
    case None =>
      assert emails[..|emails|] == emails;
  }

  /** The escalation contact of the first escalating rule is appended and set to PENDING. */
  lemma EscalationAppendsContact(d: Decision, approvers: seq<Approver>, history: seq<ApprovalHistory>,
                                 autoRules: seq<AutoApprovalRule>, escalationRules: seq<EscalationRule>,
                                 currentHour: int, contact: string)
    requires !AutoApproves(autoRules, d)
    requires FirstEscalation(escalationRules,
               d.(requiredApprovers := Emails(SelectedApprovers(approvers, history, d, currentHour)),
                  approvals := MarkPending(d.approvals, Emails(SelectedApprovers(approvers, history, d, currentHour)))))
             == Some(contact)
    ensures contact != ""
    ensures Routed(d, approvers, history, autoRules, escalationRules, currentHour).requiredApprovers ==
            Emails(SelectedApprovers(approvers, history, d, currentHour)) + [contact]
    ensures Routed(d, approvers, history, autoRules, escalationRules, currentHour).approvals[contact] == Pending
  {
  }

  // ---------------------------------------------------------------------
  // The agent
  // ---------------------------------------------------------------------

  /** `approvers` with `a` registered under its email: replaced in place if present, appended otherwise. */
  function Registered(approvers: seq<Approver>, a: Approver): (r: seq<Approver>)
    ensures a in r
    ensures forall b :: b in r ==> b == a || b in approvers
    ensures forall b :: b in approvers && b.email != a.email ==> b in r
    ensures (exists b :: b in approvers && b.email == a.email) ==> |r| == |approvers|
    ensures (forall b :: b in approvers ==> b.email != a.email) ==> r == approvers + [a]
  {
    if approvers == [] then [a]
    else if approvers[0].email == a.email then [a] + approvers[1..]
    else
      var rest := Registered(approvers[1..], a);
      assert approvers == [approvers[0]] + approvers[1..];
      [approvers[0]] + rest
  }

  /** `order` with `id` at the end unless it is already there (dictionary insertion order). */
  function Remember(order: seq<string>, id: string): seq<string>
  {
    if id in order then order else order + [id]
  }

  class HumanInLoopAgent {
    var approvers: seq<Approver>
    var decisionOrder: seq<string>
    var decisions: map<string, Decision>
    var approvalHistory: seq<ApprovalHistory>
    var autoApprovalRules: seq<AutoApprovalRule>
    var escalationRules: seq<EscalationRule>

    /** Decisions are keyed by id and listed once each, in insertion order. */
    ghost predicate Valid()
      reads this
    {
      (forall id :: id in decisionOrder <==> id in decisions) &&
      (forall i, j :: 0 <= i < j < |decisionOrder| ==> decisionOrder[i] != decisionOrder[j])
    }

    constructor ()
      ensures Valid()
      ensures approvers == [] && decisionOrder == [] && decisions == map[] && approvalHistory == []
      ensures autoApprovalRules == [] && escalationRules == []
    {
      approvers := [];
      decisionOrder := [];
      decisions := map[];
      approvalHistory := [];
      autoApprovalRules := [];
      escalationRules := [];
    }

    method RegisterApprover(approver: Approver)
      modifies this
      ensures approvers == Registered(old(approvers), approver)
      ensures decisionOrder == old(decisionOrder) && decisions == old(decisions)
      ensures approvalHistory == old(approvalHistory)
      ensures autoApprovalRules == old(autoApprovalRules) && escalationRules == old(escalationRules)
    {
      approvers := Registered(approvers, approver);
    }

    method AddAutoApprovalRule(rule: AutoApprovalRule)
      modifies this
      ensures autoApprovalRules == old(autoApprovalRules) + [rule]
      ensures approvers == old(approvers) && decisionOrder == old(decisionOrder) && decisions == old(decisions)
      ensures approvalHistory == old(approvalHistory) && escalationRules == old(escalationRules)
    {
      autoApprovalRules := autoApprovalRules + [rule];
    }

    method AddEscalationRule(rule: EscalationRule)
      modifies this
      ensures escalationRules == old(escalationRules) + [rule]
      ensures approvers == old(approvers) && decisionOrder == old(decisionOrder) && decisions == old(decisions)
      ensures approvalHistory == old(approvalHistory) && autoApprovalRules == old(autoApprovalRules)
    {
      escalationRules := escalationRules + [rule];
    }

    method CanAutoApprove(d: Decision) returns (approve: bool)
      ensures approve == AutoApproves(autoApprovalRules, d)
    {
      for i := 0 to |autoApprovalRules|
        invariant forall j :: 0 <= j < i ==> !Approves(autoApprovalRules[j], d)
      {
        match RunAutoRule(autoApprovalRules[i], d)
        case Threw =>
        case Returned(answer) =>
          if answer {
            return true;
          }
      }
      return false;
    }

    method CheckEscalation(d: Decision) returns (escalatedTo: Option<string>)
      ensures escalatedTo == FirstEscalation(escalationRules, d)
    {
      for i := 0 to |escalationRules|
        invariant forall j :: 0 <= j < i ==> !Escalates(escalationRules[j], d)
      {
        match RunEscalationRule(escalationRules[i], d)
        case Threw =>
        case Returned(contact) =>
          if contact.Some? && contact.value != "" {
            FirstEscalationAt(escalationRules, d, i);
            return contact;
          }
      }
      return None;
    }

    method SelectApprovers(d: Decision, currentHour: int) returns (selected: seq<Approver>)
      ensures selected == SelectedApprovers(approvers, approvalHistory, d, currentHour)
    {
      var candidates := ScoreEligible(d, currentHour);
      var sorted := SortByScore(candidates);
      var k := if |sorted| < SelectionSize(d.urgency) then |sorted| else SelectionSize(d.urgency);
      selected := TakeTop(sorted, k);
    }

    /** Scores every registered approver with the expertise and the authority the decision needs. */
    method ScoreEligible(d: Decision, currentHour: int) returns (candidates: seq<Candidate>)
      ensures candidates == Candidates(approvers, approvalHistory, d, currentHour)
    {
      candidates := [];
      for i := 0 to |approvers|
        invariant candidates == Candidates(approvers[..i], approvalHistory, d, currentHour)
      {
        assert approvers[..i + 1][..i] == approvers[..i];
        var approver := approvers[i];
        var expertiseMatch := TypeValue(d.decisionType) in approver.expertiseAreas;
        var hasAuthority := d.financialImpact <= Authority(approver, d.decisionType);
        var isAvailable := currentHour in approver.availabilityHours;
        if expertiseMatch && hasAuthority {
          var score := 0.0;
          score := score + (if isAvailable then 10.0 else 0.0);
          score := score + (if expertiseMatch then 5.0 else 0.0);
          score := score + HistoricalPerformanceScore(approvalHistory, approver.email, d.decisionType);
          candidates := candidates + [Candidate(score, approver)];
        }
      }
      assert approvers[..|approvers|] == approvers;
    }

    /**
     * Stores the decision under its id, either auto-approved or routed to the
     * selected approvers and an escalation contact; the notification of the
     * approvers is not modelled.
     */
    method RequestApproval(decision: Decision, currentHour: int) returns (stored: Decision)
      requires Valid()
      modifies this
      ensures Valid()
      ensures stored == Routed(decision, approvers, approvalHistory, autoApprovalRules, escalationRules, currentHour)
      ensures decisions == old(decisions)[decision.id := stored]
      ensures decisionOrder == Remember(old(decisionOrder), decision.id)
      ensures approvers == old(approvers) && approvalHistory == old(approvalHistory)
      ensures autoApprovalRules == old(autoApprovalRules) && escalationRules == old(escalationRules)
    {
      stored := Route(decision, currentHour);
      Store(stored);
    }

    /** The decision auto-approved, or routed to the selected approvers and an escalation contact. */
    method Route(decision: Decision, currentHour: int) returns (routed: Decision)
      ensures routed == Routed(decision, approvers, approvalHistory, autoApprovalRules, escalationRules, currentHour)
    {
      var auto := CanAutoApprove(decision);
      if auto {
        routed := decision.(autoApproved := true, finalStatus := AutoApproved);
      } else {
        var selected := SelectApprovers(decision, currentHour);
        var emails := Emails(selected);
        var approvals := MarkAll(decision.approvals, emails);
        routed := decision.(requiredApprovers := emails, approvals := approvals);
        var escalatedTo := CheckEscalation(routed);
        if escalatedTo.Some? {
          routed := routed.(requiredApprovers := routed.requiredApprovers + [escalatedTo.value],
                            approvals := routed.approvals[escalatedTo.value := Pending]);
        }
      }
    }

    method Store(d: Decision)
      requires Valid()
      modifies this
      ensures Valid()
      ensures decisions == old(decisions)[d.id := d]
      ensures decisionOrder == Remember(old(decisionOrder), d.id)
      ensures approvers == old(approvers) && approvalHistory == old(approvalHistory)
      ensures autoApprovalRules == old(autoApprovalRules) && escalationRules == old(escalationRules)
    {
      if d.id !in decisionOrder {
        decisionOrder := decisionOrder + [d.id];
      }
      decisions := decisions[d.id := d];
    }

    /**
     * Records one approver's answer: an unknown decision or an approver not
     * assigned to it is an error that changes nothing; otherwise only that
     * approver's status changes, one history entry is appended, and the final
     * status is recomputed.
     */
    method RecordApproval(decisionId: string, approverEmail: string, status: ApprovalStatus, now: int,
                          contextViewed: bool := false, feedback: Option<string> := None)
      returns (result: Result<Decision, ApprovalError>)
      requires Valid()
      modifies this
      ensures Valid()
      ensures decisionId !in old(decisions) ==>
                result == Err(DecisionNotFound(decisionId)) &&
                decisions == old(decisions) && approvalHistory == old(approvalHistory)
      ensures decisionId in old(decisions) && approverEmail !in old(decisions)[decisionId].approvals ==>
                result == Err(ApproverNotAssigned(approverEmail)) &&
                decisions == old(decisions) && approvalHistory == old(approvalHistory)
      ensures decisionId in old(decisions) && approverEmail in old(decisions)[decisionId].approvals ==>
                var d := old(decisions)[decisionId];
                var approvals := d.approvals[approverEmail := status];
                result == Ok(d.(approvals := approvals, finalStatus := DecisionStatus(approvals))) &&
                decisions == old(decisions)[decisionId := result.value] &&
                approvalHistory == old(approvalHistory) +
                  [ApprovalHistory(d.decisionType, approverEmail, status, now - d.createdAt, contextViewed, feedback)]
      ensures decisionOrder == old(decisionOrder) && approvers == old(approvers)
      ensures autoApprovalRules == old(autoApprovalRules) && escalationRules == old(escalationRules)
    {
      if decisionId !in decisions {
        return Err(DecisionNotFound(decisionId));
      }
      var decision := decisions[decisionId];
      if approverEmail !in decision.approvals {
        return Err(ApproverNotAssigned(approverEmail));
      }
      decision := decision.(approvals := decision.approvals[approverEmail := status]);
      var responseTime := now - decision.createdAt;
      approvalHistory := approvalHistory +
        [ApprovalHistory(decision.decisionType, approverEmail, status, responseTime, contextViewed, feedback)];
      decision := decision.(finalStatus := DecisionStatus(decision.approvals));
      decisions := decisions[decisionId := decision];
      result := Ok(decision);
    }

    /** The stored decisions, in insertion order, in which `email` is still PENDING. */
    function PendingDecisions(email: string): (r: seq<Decision>)
      reads this
      ensures forall d :: d in r <==>
                exists id :: id in decisionOrder && id in decisions && decisions[id] == d &&
                             email in d.approvals && d.approvals[email] == Pending
    {
      PendingAmong(decisionOrder, decisions, email)
    }
  }

  lemma FirstEscalationAt(rules: seq<EscalationRule>, d: Decision, i: nat)
    requires i < |rules| && Escalates(rules[i], d)
    requires forall j :: 0 <= j < i ==> !Escalates(rules[j], d)
    ensures FirstEscalation(rules, d) == RunEscalationRule(rules[i], d).value
    decreases i
  {
    if i > 0 {
      assert rules[1..][i - 1] == rules[i];
      FirstEscalationAt(rules[1..], d, i - 1);
    }
  }

  function PendingAmong(order: seq<string>, decisions: map<string, Decision>, email: string): (r: seq<Decision>)
    ensures forall d :: d in r <==>
              exists id :: id in order && id in decisions && decisions[id] == d &&
                           email in d.approvals && d.approvals[email] == Pending
  {
    if order == [] then []
    else
      var id := order[|order| - 1];
      var rest := PendingAmong(order[..|order| - 1], decisions, email);
      assert forall x :: x in order <==> x in order[..|order| - 1] || x == id by {
        assert order == order[..|order| - 1] + [id];
      }
      rest + (if id in decisions && email in decisions[id].approvals && decisions[id].approvals[email] == Pending
              then [decisions[id]] else [])
  }
}
