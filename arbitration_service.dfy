/** Human arbitration of fraud cases: assignment to an arbitrator, the arbitrator's decision
    and what follows from it, the deadline text shown to arbitrators, escalation of cases
    past the 72-hour window, and workload statistics. */
module Arbitration {
  import opened Common
  import opened FraudCases
  import opened CaseStore
  import opened ReversalTracking
  import opened Reversals
  import opened FraudReports

  // ---------------------------------------------------------------------------------------
  // Assignment

  datatype AssignmentRequest = AssignmentRequest(
    caseId: Uuid,
    arbitratorId: Option<Uuid>,
    notes: Option<string>)

  const AlreadyAssignedMessage := "Case is already assigned to an arbitrator"
  const AssignedStatusText := "assigned_to_arbitrator"

  /** `assignCaseToArbitrator`: the case must exist, be under investigation and have no
      arbitrator yet; it then records the arbitrator and the time, and the assignment is
      logged, the arbitrator notified and the reporter told. A refused assignment changes
      nothing and calls no one. No case changes status. */
  method AssignCaseToArbitrator(repo: seq<FraudCase>, req: AssignmentRequest, now: Time)
    returns (r: Result<FraudCase>, effects: seq<Effect>)
    requires AllValid(repo)
    modifies repo
    ensures AllValid(repo)
    ensures FindById(repo, req.caseId).None? ==> r == Err(CaseNotFound(req.caseId)) && effects == []
    ensures FindById(repo, req.caseId).Some? ==>
              var c := FindById(repo, req.caseId).value;
              && (old(c.status) != Investigating ==>
                    r == Err(IllegalState(AssignMessage)) && effects == [])
              && (old(c.status) == Investigating && old(c.assignedArbitratorId).Some? ==>
                    r == Err(IllegalState(AlreadyAssignedMessage)) && effects == [])
              && (old(c.status) == Investigating && old(c.assignedArbitratorId).None? ==>
                    && r == Ok(c)
                    && c.assignedArbitratorId == req.arbitratorId && c.assignedAt == Some(now)
                    && unchanged(c`status, c`resolution, c`resolvedAt, c`evidence, c`escalatedAt,
                                 c`resolutionReasoning)
                    && effects ==
                         [LogAssignment(req.caseId, req.arbitratorId, req.notes),
                          NotifyArbitrationAssignment(req.arbitratorId, req.caseId,
                                                      PriorityValue(c.priority)),
                          NotifyCaseStatus(c.reporterId, req.caseId, AssignedStatusText)])
    ensures r.Err? ==> forall d :: d in repo ==> unchanged(d)
    ensures forall d :: d in repo && d.caseId != req.caseId ==> unchanged(d)
    ensures forall d :: d in repo ==> d.status == old(d.status)
  {
    effects := [];
    var found := FindById(repo, req.caseId);
    if found.None? {
      return Err(CaseNotFound(req.caseId)), effects;
    }
    var c := found.value;
    if c.status != Investigating {
      return Err(IllegalState(AssignMessage)), effects;
    }
    if c.IsAssigned() {
      return Err(IllegalState(AlreadyAssignedMessage)), effects;
    }
    var outcome := c.AssignToArbitrator(req.arbitratorId, now);
    effects := [LogAssignment(req.caseId, req.arbitratorId, req.notes),
                NotifyArbitrationAssignment(req.arbitratorId, req.caseId, PriorityValue(c.priority)),
                NotifyCaseStatus(c.reporterId, req.caseId, AssignedStatusText)];
    r := Ok(c);
  }

  // ---------------------------------------------------------------------------------------
  // Decision

  datatype DecisionRequest = DecisionRequest(
    caseId: Uuid,
    decision: string,
    reasoning: string,
    additionalEvidence: Option<Evidence>)

  const DecideMessage := "Can only make decisions on investigating cases"
  const UnassignedMessage := "Case must be assigned to an arbitrator"

  /** The checks a decision must pass before anything changes, in order: the case exists,
      is under investigation, has an arbitrator, and the decision names a resolution. */
  function DecisionFailure(repo: seq<FraudCase>, req: DecisionRequest): (r: Option<Failure>)
    reads repo
    ensures FindById(repo, req.caseId).None? ==> r == Some(CaseNotFound(req.caseId))
    ensures r.None? <==>
              && FindById(repo, req.caseId).Some?
              && FindById(repo, req.caseId).value.status == Investigating
              && FindById(repo, req.caseId).value.assignedArbitratorId.Some?
              && ResolutionFromString(req.decision).Some?
    ensures FindById(repo, req.caseId).Some? ==>
              var c := FindById(repo, req.caseId).value;
              && (c.status != Investigating ==> r == Some(IllegalState(DecideMessage)))
              && (c.status == Investigating && c.assignedArbitratorId.None? ==>
                    r == Some(IllegalState(UnassignedMessage)))
              && (c.status == Investigating && c.assignedArbitratorId.Some? &&
                  ResolutionFromString(req.decision).None? ==>
                    r == Some(InvalidFraudReport("Invalid decision: " + req.decision)))
  {
    var found := FindById(repo, req.caseId);
    if found.None? then Some(CaseNotFound(req.caseId))
    else if found.value.status != Investigating then Some(IllegalState(DecideMessage))
    else if !found.value.IsAssigned() then Some(IllegalState(UnassignedMessage))
    else if ResolutionFromString(req.decision).None? then
      Some(InvalidFraudReport("Invalid decision: " + req.decision))
    else None
  }

  /** The evidence a decision leaves: non-empty additional evidence is stored under
      `arbitratorEvidence` with the decision time beside it, and everything already there
      is kept; with no additional evidence the evidence is untouched. */
  function DecisionEvidence(current: Option<Evidence>, additional: Option<Evidence>, now: Time)
    : (r: Option<Evidence>)
    ensures additional.None? || additional.value == map[] ==> r == current
    ensures additional.Some? && additional.value != map[] ==>
              && r.Some?
              && r.value.Keys == (if current.Some? then current.value.Keys else {}) +
                                 {"arbitratorEvidence", "arbitratorDecisionTimestamp"}
              && r.value["arbitratorEvidence"] == Fields(additional.value)
              && r.value["arbitratorDecisionTimestamp"] == Timestamp(now)
              && (current.Some? ==>
                    forall k :: k in current.value && k != "arbitratorEvidence" &&
                                k != "arbitratorDecisionTimestamp" ==>
                      r.value[k] == current.value[k])
  {
    if additional.Some? && additional.value != map[] then
      Some(MergeEvidence(current, map["arbitratorEvidence" := Fields(additional.value),
                                      "arbitratorDecisionTimestamp" := Timestamp(now)]))
    else current
  }

  /** Records an accepted decision on the case: the evidence, the reasoning, and the
      resolution, which takes the case to RESOLVED. */
  method RecordDecision(c: FraudCase, req: DecisionRequest, resolution: Resolution, now: Time)
    requires c.Valid() && c.status == Investigating
    modifies c`evidence, c`resolutionReasoning, c`status, c`resolvedAt, c`resolution
    ensures c.Valid()
    ensures c.status == Resolved && c.resolution == Some(resolution)
    ensures c.resolutionReasoning == Some(req.reasoning)
    ensures c.evidence == DecisionEvidence(old(c.evidence), req.additionalEvidence, now)
  {
    if req.additionalEvidence.Some? && req.additionalEvidence.value != map[] {
      c.evidence := DecisionEvidence(c.evidence, req.additionalEvidence, now);
    }
    c.resolutionReasoning := Some(req.reasoning);
    var resolved := c.Resolve(resolution, now);
  }

  /** The reversal an arbitrator's FRAUD_CONFIRMED decision asks for. */
  function ArbitrationReversal(c: FraudCase, req: DecisionRequest): ReversalRequest {
    ReversalRequest(Some(c.transactionId), Some(c.caseId), req.reasoning, ManualArbitration)
  }

  /** The calls that close a decision: the log entry and the reporter's notification. */
  function DecisionRecords(c: FraudCase, req: DecisionRequest): seq<Effect>
    reads c
  {
    [LogDecision(req.caseId, c.assignedArbitratorId, req.decision, req.reasoning),
     NotifyDecision(c.reporterId, req.caseId, req.decision, req.reasoning)]
  }

  /** `processArbitrationDecision` as written: the case is resolved first and only then is
      the manual reversal of a FRAUD_CONFIRMED decision attempted. By then the case is no
      longer active, so the reversal's own validation refuses it, the failure propagates, no
      token is touched, the decision is neither logged nor notified, and the time tracker
      is left with a reversal in progress. Other decisions unfreeze the tokens. */
  method ProcessArbitrationDecisionAsWritten(repo: seq<FraudCase>, tracker: ReversalTimeTracker,
                                             env: Collaborators, req: DecisionRequest, now: Time)
    returns (r: Result<FraudCase>, effects: seq<Effect>)
    requires AllValid(repo) && UniqueIds(repo) && tracker.Valid()
    modifies repo, tracker
    ensures AllValid(repo) && tracker.Valid()
    ensures old(DecisionFailure(repo, req)).Some? ==>
              && r == Err(old(DecisionFailure(repo, req)).value) && effects == []
              && unchanged(tracker) && forall d :: d in repo ==> unchanged(d)
    ensures old(DecisionFailure(repo, req)).None? ==>
              var c := FindById(repo, req.caseId).value;
              var resolution := ResolutionFromString(req.decision).value;
              && c.status == Resolved && c.resolution == Some(resolution)
              && c.resolutionReasoning == Some(req.reasoning)
              && c.evidence == DecisionEvidence(old(c.evidence), req.additionalEvidence, now)
              && (resolution == FraudConfirmed ==>
                    && r.Err? && r.failure.ReversalFailed? && effects == []
                    && (env.eligibleForReversal(c.transactionId) ==>
                          r.failure == ReversalFailed("Cannot reverse inactive fraud case"))
                    && tracker.active == old(tracker.active)[c.caseId :=
                         Record(c.caseId, now, None, None, InProgress, None)]
                    && tracker.completed == old(tracker.completed))
              && (resolution != FraudConfirmed ==>
                    && r == Ok(c) && unchanged(tracker)
                    && effects == [UnfreezeTokens(c.transactionId, c.caseId)] +
                                  DecisionRecords(c, req))
    ensures forall d :: d in repo && d.caseId != req.caseId ==> unchanged(d)
  {
    var invalid := DecisionFailure(repo, req);
    if invalid.Some? {
      return Err(invalid.value), [];
    }
    var c := FindById(repo, req.caseId).value;
    var resolution := ResolutionFromString(req.decision).value;
    RecordDecision(c, req, resolution, now);
    if resolution == FraudConfirmed {
      FindStored(repo, c);
      ResolvedCaseCannotBeReversed(repo, env, ArbitrationReversal(c, req), c);
      var reversal;
      reversal, effects := ExecuteManualReversal(repo, tracker, env, ArbitrationReversal(c, req),
                                                 now);
      return Err(reversal.failure), effects;
    }
    effects := [UnfreezeTokens(c.transactionId, c.caseId)] + DecisionRecords(c, req);
    r := Ok(c);
  }

  /** `processArbitrationDecision` with the order its purpose calls for: a FRAUD_CONFIRMED
      decision reverses the transaction while the case is still under investigation, and the
      case is resolved only once the reversal went through; a failed reversal leaves the case
      undecided. Other decisions unfreeze the tokens, as written. */
  method ProcessArbitrationDecision(repo: seq<FraudCase>, tracker: ReversalTimeTracker,
                                    env: Collaborators, req: DecisionRequest, now: Time)
    returns (r: Result<FraudCase>, effects: seq<Effect>)
    requires AllValid(repo) && UniqueIds(repo) && tracker.Valid()
    modifies repo, tracker
    ensures AllValid(repo) && tracker.Valid()
    ensures old(DecisionFailure(repo, req)).Some? ==>
              && r == Err(old(DecisionFailure(repo, req)).value) && effects == []
              && unchanged(tracker) && forall d :: d in repo ==> unchanged(d)
    ensures old(DecisionFailure(repo, req)).None? ==>
              var c := FindById(repo, req.caseId).value;
              var resolution := ResolutionFromString(req.decision).value;
              && (resolution == FraudConfirmed ==>
                    && (r.Ok? <==> env.eligibleForReversal(c.transactionId) &&
                                   env.failingStep(c.transactionId).None?)
                    && (r.Ok? ==>
                          && r == Ok(c)
                          && c.status == Resolved && c.resolution == Some(FraudConfirmed)
                          && c.resolutionReasoning == Some(req.reasoning)
                          && c.evidence ==
                               DecisionEvidence(old(c.evidence), req.additionalEvidence, now)
                          && effects == ReversalSteps(env, c.transactionId, c.caseId) +
                                        DecisionRecords(c, req)
                          && c.caseId !in tracker.active && c.caseId in tracker.completed
                          && tracker.completed[c.caseId].status == Completed)
                    && (r.Err? ==>
                          && unchanged(c)
                          && (!env.eligibleForReversal(c.transactionId) ==>
                                r == Err(ReversalFailed("Transaction is not eligible for reversal")) &&
                                effects == [])
                          && (env.eligibleForReversal(c.transactionId) ==>
                                var s := env.failingStep(c.transactionId).value;
                                r == Err(StepFailure(s)) &&
                                effects == ReversalSteps(env, c.transactionId, c.caseId)
                                             [..StepsBefore(s)])
                          && tracker.active == old(tracker.active)[c.caseId :=
                               Record(c.caseId, now, None, None, InProgress, None)]
                          && tracker.completed == old(tracker.completed)))
              && (resolution != FraudConfirmed ==>
                    && r == Ok(c) && unchanged(tracker)
                    && c.status == Resolved && c.resolution == Some(resolution)
                    && c.resolutionReasoning == Some(req.reasoning)
                    && c.evidence == DecisionEvidence(old(c.evidence), req.additionalEvidence, now)
                    && effects == [UnfreezeTokens(c.transactionId, c.caseId)] +
                                  DecisionRecords(c, req))
    ensures forall d :: d in repo && d.caseId != req.caseId ==> unchanged(d)
  {
    var invalid := DecisionFailure(repo, req);
    if invalid.Some? {
      return Err(invalid.value), [];
    }
    var c := FindById(repo, req.caseId).value;
    var resolution := ResolutionFromString(req.decision).value;
    if resolution == FraudConfirmed {
      FindStored(repo, c);
      var reversal;
      reversal, effects := ExecuteManualReversal(repo, tracker, env, ArbitrationReversal(c, req),
                                                 now);
      if reversal.Err? {
        return Err(reversal.failure), effects;
      }
      RecordDecision(c, req, resolution, now);
      effects := effects + DecisionRecords(c, req);
      return Ok(c), effects;
    }
    RecordDecision(c, req, resolution, now);
    effects := [UnfreezeTokens(c.transactionId, c.caseId)] + DecisionRecords(c, req);
    r := Ok(c);
  }

  // ---------------------------------------------------------------------------------------
  // The deadline as arbitrators see it

  function DigitChar(d: nat): char
    requires d < 10
  {
    "0123456789"[d]
  }

  predicate IsDigits(s: string) {
    forall i :: 0 <= i < |s| ==> '0' <= s[i] <= '9'
  }

  /** A `long` in decimal, as string concatenation writes it. */
  function NatToString(n: nat): (s: string)
    ensures |s| >= 1 && IsDigits(s)
    ensures n < 10 <==> |s| == 1
  {
    if n < 10 then [DigitChar(n)] else NatToString(n / 10) + [DigitChar(n % 10)]
  }

  /** The number a string of decimal digits denotes. */
  function DigitsValue(s: string): nat
    requires IsDigits(s)
  {
    if s == [] then 0 else DigitsValue(s[..|s| - 1]) * 10 + (s[|s| - 1] - '0') as nat
  }

  /** Printing a number and reading it back gives the number. */
  lemma {:induction false} NatToStringRoundTrip(n: nat)
    ensures DigitsValue(NatToString(n)) == n
  {
    if n >= 10 {
      NatToStringRoundTrip(n / 10);
      var s := NatToString(n);
      assert s[..|s| - 1] == NatToString(n / 10);
    }
  }

  const HoursRemainingSuffix := " hours remaining"
  const OverdueText := "OVERDUE"

  /** The time-remaining text of a case view: OVERDUE once no hour is left, otherwise the
      number of hours followed by the suffix (`TimeRemainingTextMeaning`). */
  function TimeRemainingText(hours: int): string {
    if hours > 0 then NatToString(hours) + HoursRemainingSuffix else OverdueText
  }

  /** The text says OVERDUE exactly when no hour is left, and otherwise carries the number
      of hours, which can be read back from it. */
  lemma TimeRemainingTextMeaning(hours: int)
    ensures TimeRemainingText(hours) == OverdueText <==> hours <= 0
    ensures hours > 0 ==>
              var t := TimeRemainingText(hours);
              && |t| > |HoursRemainingSuffix|
              && t[|t| - |HoursRemainingSuffix|..] == HoursRemainingSuffix
              && IsDigits(t[..|t| - |HoursRemainingSuffix|])
              && DigitsValue(t[..|t| - |HoursRemainingSuffix|]) == hours
  {
    if hours > 0 {
      var t := TimeRemainingText(hours);
      assert |t| > |OverdueText|;
      assert t[..|t| - |HoursRemainingSuffix|] == NatToString(hours);
      NatToStringRoundTrip(hours);
    }
  }

  /** A case past its deadline shows OVERDUE; a case showing hours is under investigation
      and has at most 72 of them. */
  lemma CaseTimeRemainingText(status: Status, createdAt: Time, now: Time)
    ensures IsOverdueAt(status, createdAt, now) ==>
              TimeRemainingText(TimeRemainingHours(status, createdAt, now)) == OverdueText
    ensures TimeRemainingText(TimeRemainingHours(status, createdAt, now)) != OverdueText ==>
              status == Investigating &&
              (now >= createdAt ==> TimeRemainingHours(status, createdAt, now) <= ResolutionWindowHours)
  {
    TimeRemainingTextMeaning(TimeRemainingHours(status, createdAt, now));
  }

  /** The case summary an arbitrator's list shows. */
  datatype ArbitrationCaseView = ArbitrationCaseView(
    caseId: Uuid,
    transactionId: Uuid,
    caseType: string,
    priority: string,
    createdAt: Time,
    assignedAt: Option<Time>,
    timeRemaining: string)

  /** The view `getCasesForArbitrator` builds for each of the cases it lists. */
  function Summary(c: FraudCase, now: Time): ArbitrationCaseView
    reads c
  {
    ArbitrationCaseView(c.caseId, c.transactionId, CaseTypeValue(c.caseType),
                        PriorityValue(c.priority), c.createdAt, c.assignedAt,
                        TimeRemainingText(c.GetTimeRemainingHours(now)))
  }

  /** A summary shows the case type and priority by their values, which read back to the
      case's own, and its deadline text says OVERDUE exactly when no hour is left, as for
      every overdue case. */
  lemma SummaryMeaning(c: FraudCase, now: Time)
    ensures Summary(c, now).caseId == c.caseId
    ensures CaseTypeFromString(Summary(c, now).caseType) == Some(c.caseType)
    ensures PriorityFromString(Summary(c, now).priority) == Some(c.priority)
    ensures Summary(c, now).timeRemaining == OverdueText <==> c.GetTimeRemainingHours(now) <= 0
    ensures c.IsOverdue(now) ==> Summary(c, now).timeRemaining == OverdueText
  {
    CaseTypeRoundTrip(c.caseType);
    PriorityRoundTrip(c.priority);
  }

  /** `getCasesForArbitrator`: the arbitrator's cases that are still under investigation,
      each with its deadline text; no other case is listed and none of these is missed. */
  function GetCasesForArbitrator(repo: seq<FraudCase>, arbitratorId: Uuid, now: Time)
    : (r: seq<ArbitrationCaseView>)
    reads repo
    ensures |r| <= |repo|
    ensures forall i :: 0 <= i < |r| ==>
              exists c :: c in repo && c.status == Investigating &&
                          c.assignedArbitratorId == Some(arbitratorId) && r[i] == Summary(c, now)
    ensures forall c :: (c in repo && c.status == Investigating &&
                         c.assignedArbitratorId == Some(arbitratorId)) ==> Summary(c, now) in r
  {
    if repo == [] then []
    else
      assert forall c :: c in repo[1..] ==> c in repo;
      var rest := GetCasesForArbitrator(repo[1..], arbitratorId, now);
      var c := repo[0];
      if c.status == Investigating && c.assignedArbitratorId == Some(arbitratorId) then
        [Summary(c, now)] + rest
      else rest
  }

  // ---------------------------------------------------------------------------------------
  // Escalation

  /** `findCasesNeedingEscalation`: under investigation, created more than 72 hours before
      `now`, and not escalated yet. */
  predicate NeedsEscalation(v: CaseView, now: Time): (b: bool)
    ensures b <==> IsOverdueAt(v.status, v.createdAt, now) && v.escalatedAt.None?
    ensures b ==> TimeRemainingHours(v.status, v.createdAt, now) == 0
  {
    v.status == Investigating && v.createdAt < now - ResolutionWindowHours * Hour &&
    v.escalatedAt.None?
  }

  const EscalationReason := "Case exceeded 72-hour resolution deadline"

  /** `escalateCase`'s calls: the log entry, the management alert and the reporter's
      notification. */
  function EscalationEffects(v: CaseView): seq<Effect> {
    [LogEscalation(v.caseId, v.assignedArbitratorId, EscalationReason),
     NotifyEscalation(v.caseId, v.assignedArbitratorId, PriorityValue(v.priority)),
     NotifyCaseStatus(v.reporterId, v.caseId, "escalated")]
  }

  /** The calls of escalating each of the cases, in order. */
  function AllEscalationEffects(vs: seq<CaseView>): seq<Effect> {
    if vs == [] then []
    else AllEscalationEffects(vs[..|vs| - 1]) + EscalationEffects(vs[|vs| - 1])
  }

  /** Three calls per escalated case. */
  lemma {:induction false} EscalationEffectsCount(vs: seq<CaseView>)
    ensures |AllEscalationEffects(vs)| == 3 * |vs|
  {
    if vs != [] {
      EscalationEffectsCount(vs[..|vs| - 1]);
    }
  }

  /** The loop of `checkForOverdueCases`: escalates each case in turn. Escalation only
      stamps the time, so every other field the views show stays as it was. */
  method EscalateAll(cases: seq<FraudCase>, repo: seq<FraudCase>, now: Time)
    returns (effects: seq<Effect>)
    requires UniqueIds(cases)
    requires forall c :: c in cases ==> c in repo
    requires forall j :: 0 <= j < |cases| ==>
               cases[j].Valid() && cases[j].status == Investigating
    modifies repo
    ensures forall j :: 0 <= j < |cases| ==>
              cases[j].Valid() && View(cases[j]) == old(View(cases[j])).(escalatedAt := Some(now))
    ensures effects == AllEscalationEffects(old(Views(cases)))
    ensures forall c :: c in repo && c !in cases ==> unchanged(c)
  {
    ghost var views := Views(cases);
    effects := [];
    var i := 0;
    while i < |cases|
      invariant 0 <= i <= |cases|
      invariant forall c :: c in repo && c !in cases ==> unchanged(c)
      invariant forall j :: 0 <= j < |cases| ==>
                  cases[j].Valid() &&
                  View(cases[j]) == if j < i then views[j].(escalatedAt := Some(now)) else views[j]
      invariant effects == AllEscalationEffects(views[..i])
    {
      var c := cases[i];
      assert c in repo;
      var calls := EscalationEffects(View(c));
      var outcome := c.Escalate(now);
      assert views[..i + 1][..i] == views[..i];
      effects := effects + calls;
      i := i + 1;
    }
    assert views[..i] == views;
  }

  /** `checkForOverdueCases`: every case that needs escalation is escalated, and the batch
      is logged only when there was at least one. Afterwards no case needs escalation, so
      running the check again at the same time escalates nothing. */
  method CheckForOverdueCases(repo: seq<FraudCase>, now: Time)
    returns (escalated: seq<FraudCase>, effects: seq<Effect>)
    requires AllValid(repo) && UniqueIds(repo)
    modifies repo
    ensures AllValid(repo)
    ensures escalated == old(Where(repo, (v: CaseView) => NeedsEscalation(v, now)))
    ensures forall c :: c in escalated ==> c.escalatedAt == Some(now) && c.status == Investigating
    ensures forall c :: c in repo && c !in escalated ==> unchanged(c)
    ensures Where(repo, (v: CaseView) => NeedsEscalation(v, now)) == []
    ensures escalated == [] ==> effects == []
    ensures escalated != [] ==>
              effects == AllEscalationEffects(old(Views(Where(repo, (v: CaseView) =>
                                                                NeedsEscalation(v, now))))) +
                         [LogEscalationBatch(|escalated|)]
  {
    escalated := Where(repo, (v: CaseView) => NeedsEscalation(v, now));
    WhereUnique(repo, (v: CaseView) => NeedsEscalation(v, now));
    forall j | 0 <= j < |escalated|
      ensures escalated[j].status == Investigating && escalated[j].Valid()
    {
      assert escalated[j] in escalated;
    }
    effects := EscalateAll(escalated, repo, now);
    forall c | c in repo
      ensures c.Valid() && !NeedsEscalation(View(c), now)
      ensures c in escalated ==> c.escalatedAt == Some(now) && c.status == Investigating
    {
      if c in escalated {
        var j :| 0 <= j < |escalated| && escalated[j] == c;
      }
    }
    WhereNone(repo, (v: CaseView) => NeedsEscalation(v, now));
    if escalated != [] {
      effects := effects + [LogEscalationBatch(|escalated|)];
    }
  }

  // ---------------------------------------------------------------------------------------
  // Statistics

  /** How many of the views satisfy `p`: the meaning of a filtered stream's `count()`. */
  function Count(vs: seq<CaseView>, p: CaseView -> bool): (n: nat)
    ensures n <= |vs|
  {
    if vs == [] then 0 else (if p(vs[0]) then 1 else 0) + Count(vs[1..], p)
  }

  /** A view that satisfies `p` is counted. */
  lemma {:induction false} CountPositive(vs: seq<CaseView>, p: CaseView -> bool, v: CaseView)
    requires v in vs && p(v)
    ensures Count(vs, p) > 0
  {
    if vs[0] != v {
      assert v in vs[1..];
      CountPositive(vs[1..], p, v);
    }
  }

  /** Every view satisfies `p` or its negation, and not both. */
  lemma {:induction false} CountComplement(vs: seq<CaseView>, p: CaseView -> bool,
                                           q: CaseView -> bool)
    requires forall v :: q(v) == !p(v)
    ensures Count(vs, p) + Count(vs, q) == |vs|
  {
    if vs != [] {
      CountComplement(vs[1..], p, q);
    }
  }

  function PriorityCount(vs: seq<CaseView>, p: Priority): nat {
    Count(vs, (v: CaseView) => v.priority == p)
  }

  /** Every view has exactly one priority. */
  lemma {:induction false} PriorityCountsSum(vs: seq<CaseView>)
    ensures PriorityCount(vs, Low) + PriorityCount(vs, Medium) + PriorityCount(vs, High) +
            PriorityCount(vs, Critical) == |vs|
  {
    if vs != [] {
      PriorityCountsSum(vs[1..]);
    }
  }

  /** A `groupingBy(...counting())` entry: present only for a group that has members. */
  function AddGroup(m: map<string, nat>, key: string, n: nat): map<string, nat> {
    if n > 0 then m[key := n] else m
  }

  function CountIn(m: map<string, nat>, key: string): nat {
    if key in m then m[key] else 0
  }

  /** The arbitrators with at least one case under investigation. */
  function ArbitratorsOf(vs: seq<CaseView>): set<Uuid> {
    set v | v in vs && v.assignedArbitratorId.Some? :: v.assignedArbitratorId.value
  }

  datatype ArbitrationStatistics = ArbitrationStatistics(
    totalActiveCases: nat,
    assignedCases: nat,
    unassignedCases: nat,
    overdueCases: nat,
    casesByPriority: map<string, nat>,
    arbitratorWorkload: map<Uuid, nat>)

  function ActiveViews(repo: seq<FraudCase>): seq<CaseView>
    reads repo
  {
    Views(Where(repo, (v: CaseView) => v.status == Investigating))
  }

  /** `groupingBy(priority value, counting())`: each priority that occurs, with how often it
      occurs; the counts add up to the number of views. */
  function PriorityGroups(vs: seq<CaseView>): (m: map<string, nat>)
    ensures m.Keys <= {"low", "medium", "high", "critical"}
    ensures forall k :: k in m ==> m[k] > 0
    ensures CountIn(m, "low") + CountIn(m, "medium") + CountIn(m, "high") +
            CountIn(m, "critical") == |vs|
    ensures CountIn(m, "low") == PriorityCount(vs, Low)
    ensures CountIn(m, "medium") == PriorityCount(vs, Medium)
    ensures CountIn(m, "high") == PriorityCount(vs, High)
    ensures CountIn(m, "critical") == PriorityCount(vs, Critical)
  {
    PriorityCountsSum(vs);
    AddGroup(AddGroup(AddGroup(AddGroup(map[], "low", PriorityCount(vs, Low)),
                               "medium", PriorityCount(vs, Medium)),
                      "high", PriorityCount(vs, High)),
             "critical", PriorityCount(vs, Critical))
  }

  /** `countActiveCasesByArbitrator`: for each arbitrator with a case, how many. */
  function Workload(vs: seq<CaseView>): (m: map<Uuid, nat>)
    ensures m.Keys == ArbitratorsOf(vs)
    ensures forall a :: a in m ==>
              m[a] > 0 && m[a] == Count(vs, (v: CaseView) => v.assignedArbitratorId == Some(a))
  {
    WorkloadPositive(vs);
    map a | a in ArbitratorsOf(vs) :: Count(vs, (v: CaseView) => v.assignedArbitratorId == Some(a))
  }

  /** `getArbitrationStatistics` over the cases under investigation: every case is either
      assigned or not, every case is counted under exactly one priority, no more cases are
      overdue than there are, and each arbitrator's workload counts that arbitrator's cases
      and is listed only for arbitrators who have one. */
  function GetArbitrationStatistics(repo: seq<FraudCase>, now: Time)
    : (s: ArbitrationStatistics)
    reads repo
    ensures s.totalActiveCases == |Where(repo, (v: CaseView) => v.status == Investigating)|
    ensures s.assignedCases ==
              Count(ActiveViews(repo), (v: CaseView) => v.assignedArbitratorId.Some?)
    ensures s.assignedCases + s.unassignedCases == s.totalActiveCases
    ensures s.overdueCases ==
              Count(ActiveViews(repo), (v: CaseView) => IsOverdueAt(v.status, v.createdAt, now))
    ensures s.overdueCases <= s.totalActiveCases
    ensures s.casesByPriority == PriorityGroups(ActiveViews(repo))
    ensures s.casesByPriority.Keys <= {"low", "medium", "high", "critical"}
    ensures forall k :: k in s.casesByPriority ==> s.casesByPriority[k] > 0
    ensures CountIn(s.casesByPriority, "low") + CountIn(s.casesByPriority, "medium") +
            CountIn(s.casesByPriority, "high") + CountIn(s.casesByPriority, "critical") ==
            s.totalActiveCases
    ensures s.arbitratorWorkload.Keys == ArbitratorsOf(ActiveViews(repo))
    ensures forall a :: a in s.arbitratorWorkload ==>
              s.arbitratorWorkload[a] > 0 &&
              s.arbitratorWorkload[a] ==
                Count(ActiveViews(repo), (v: CaseView) => v.assignedArbitratorId == Some(a))
  {
    var active := ActiveViews(repo);
    CountComplement(active, (v: CaseView) => v.assignedArbitratorId.Some?,
                    (v: CaseView) => !v.assignedArbitratorId.Some?);
    ArbitrationStatistics(
      |active|,
      Count(active, (v: CaseView) => v.assignedArbitratorId.Some?),
      Count(active, (v: CaseView) => !v.assignedArbitratorId.Some?),
      Count(active, (v: CaseView) => IsOverdueAt(v.status, v.createdAt, now)),
      PriorityGroups(active),
      Workload(active))
  }

  /** An arbitrator with a case has a workload of at least one. */
  lemma WorkloadPositive(vs: seq<CaseView>)
    ensures forall a :: a in ArbitratorsOf(vs) ==>
              Count(vs, (v: CaseView) => v.assignedArbitratorId == Some(a)) > 0
  {
    forall a | a in ArbitratorsOf(vs)
      ensures Count(vs, (v: CaseView) => v.assignedArbitratorId == Some(a)) > 0
    {
      var v :| v in vs && v.assignedArbitratorId == Some(a);
      CountPositive(vs, (v: CaseView) => v.assignedArbitratorId == Some(a), v);
    }
  }
}
