/** Reversal of fraudulent transactions: the confidence threshold that decides between an
    automated reversal and escalation, the ordered reversal steps, and the time tracking
    around them. */
module Reversals {
  import opened Common
  import opened FraudCases
  import opened CaseStore
  import opened ReversalTracking
  import opened FraudDetection

  /** Fraud confidence at or above which a case is reversed without a human. */
  const AutoReversalThreshold: real := 0.8

  datatype ReversalType = AutomatedFraud | ManualArbitration | UserRequested

  datatype ReversalRequest = ReversalRequest(
    transactionId: Option<Uuid>,
    caseId: Option<Uuid>,
    reason: string,
    reversalType: ReversalType)

  datatype ReversalResponse = ReversalResponse(
    reversalId: Uuid,
    transactionId: Uuid,
    caseId: Uuid,
    reversedAmount: real,
    newTokenBatch: Uuid,
    reversalTimestamp: Time,
    message: string)

  /** What `validateReversalRequest` lets through. */
  predicate ReversalAllowed(repo: seq<FraudCase>, env: Collaborators, req: ReversalRequest)
    reads repo
  {
    && req.transactionId.Some? && req.caseId.Some?
    && env.eligibleForReversal(req.transactionId.value)
    && FindById(repo, req.caseId.value).Some?
    && IsActiveStatus(FindById(repo, req.caseId.value).value.status)
  }

  /** `validateReversalRequest`: the checks run in order, and the first that fails decides
      the message. */
  function ValidateReversalRequest(repo: seq<FraudCase>, env: Collaborators,
                                   req: ReversalRequest): (r: Option<Failure>)
    reads repo
    ensures r.None? <==> ReversalAllowed(repo, env, req)
    ensures req.transactionId.None? ==>
              r == Some(ReversalFailed("Transaction ID is required for reversal"))
    ensures req.transactionId.Some? && req.caseId.None? ==>
              r == Some(ReversalFailed("Case ID is required for reversal"))
    ensures req.transactionId.Some? && req.caseId.Some? &&
            !env.eligibleForReversal(req.transactionId.value) ==>
              r == Some(ReversalFailed("Transaction is not eligible for reversal"))
    ensures req.transactionId.Some? && req.caseId.Some? &&
            env.eligibleForReversal(req.transactionId.value) &&
            FindById(repo, req.caseId.value).None? ==>
              r == Some(ReversalFailed("Fraud case not found"))
    ensures req.transactionId.Some? && req.caseId.Some? &&
            env.eligibleForReversal(req.transactionId.value) &&
            FindById(repo, req.caseId.value).Some? &&
            !IsActiveStatus(FindById(repo, req.caseId.value).value.status) ==>
              r == Some(ReversalFailed("Cannot reverse inactive fraud case"))
  {
    if req.transactionId.None? then Some(ReversalFailed("Transaction ID is required for reversal"))
    else if req.caseId.None? then Some(ReversalFailed("Case ID is required for reversal"))
    else if !env.eligibleForReversal(req.transactionId.value) then
      Some(ReversalFailed("Transaction is not eligible for reversal"))
    else
      var found := FindById(repo, req.caseId.value);
      if found.None? then Some(ReversalFailed("Fraud case not found"))
      else if !found.value.IsActive() then Some(ReversalFailed("Cannot reverse inactive fraud case"))
      else None
  }

  /** A case that has already been resolved or closed can never be reversed. */
  lemma ResolvedCaseCannotBeReversed(repo: seq<FraudCase>, env: Collaborators,
                                     req: ReversalRequest, c: FraudCase)
    requires req.caseId.Some? && FindById(repo, req.caseId.value) == Some(c)
    requires IsResolvedStatus(c.status)
    ensures !ReversalAllowed(repo, env, req)
    ensures ValidateReversalRequest(repo, env, req).Some?
    ensures req.transactionId.Some? && env.eligibleForReversal(req.transactionId.value) ==>
              ValidateReversalRequest(repo, env, req) ==
                Some(ReversalFailed("Cannot reverse inactive fraud case"))
  {
    ActiveXorResolved(c.status);
  }

  /** The four reversal steps, in the order they must happen. */
  function ReversalSteps(env: Collaborators, transactionId: Uuid, caseId: Uuid): seq<Effect> {
    var amount := env.amountOf(transactionId);
    [InvalidateTokens(transactionId),
     ReissueTokens(env.fromWalletOf(transactionId), amount, caseId),
     MarkReversed(transactionId, caseId),
     AuditReversal(env.reversalId(caseId), transactionId, caseId, amount,
                   env.newTokenBatch(caseId))]
  }

  /** How many steps complete before the given one throws. */
  function StepsBefore(s: ReversalStep): nat {
    match s
    case Invalidate => 0
    case Reissue => 1
    case Mark => 2
  }

  function StepFailure(s: ReversalStep): Failure {
    match s
    case Invalidate => ServiceFailure("token invalidation failed")
    case Reissue => ServiceFailure("token reissuance failed")
    case Mark => ServiceFailure("marking the transaction reversed failed")
  }

  /** `executeReversal`: after validation, invalidate the fraudulent tokens, reissue clean
      tokens of the transaction's amount to the sender, mark the transaction reversed and
      write the audit record, in that order. A step that throws ends the reversal with the
      earlier steps done and none of the later ones; the reversed amount reported is the
      transaction's amount. */
  method ExecuteReversal(repo: seq<FraudCase>, env: Collaborators, req: ReversalRequest,
                         now: Time)
    returns (r: Result<ReversalResponse>, effects: seq<Effect>)
    ensures !ReversalAllowed(repo, env, req) ==>
              r == Err(ValidateReversalRequest(repo, env, req).value) && effects == []
    ensures ReversalAllowed(repo, env, req) ==>
              var tx := req.transactionId.value;
              var caseId := req.caseId.value;
              && (env.failingStep(tx).None? ==>
                    effects == ReversalSteps(env, tx, caseId) &&
                    r == Ok(ReversalResponse(env.reversalId(caseId), tx, caseId, env.amountOf(tx),
                                             env.newTokenBatch(caseId), now,
                                             "Reversal completed successfully")))
              && (env.failingStep(tx).Some? ==>
                    var s := env.failingStep(tx).value;
                    effects == ReversalSteps(env, tx, caseId)[..StepsBefore(s)] &&
                    r == Err(StepFailure(s)))
    ensures r.Ok? <==> ReversalAllowed(repo, env, req) &&
                       env.failingStep(req.transactionId.value).None?
    ensures r.Ok? ==> r.value.reversedAmount == env.amountOf(req.transactionId.value)
    ensures ReversalAllowed(repo, env, req) &&
            env.failingStep(req.transactionId.value) in {Some(Invalidate), Some(Reissue)} ==>
              forall e :: e in effects ==> !e.MarkReversed?
  {
    effects := [];
    var invalid := ValidateReversalRequest(repo, env, req);
    if invalid.Some? {
      return Err(invalid.value), effects;
    }
    var tx := req.transactionId.value;
    var caseId := req.caseId.value;
    var amount := env.amountOf(tx);
    var fromWallet := env.fromWalletOf(tx);
    var failing := env.failingStep(tx);
    // Step 1: invalidate the fraudulent tokens.
    if failing == Some(Invalidate) {
      return Err(StepFailure(Invalidate)), effects;
    }
    effects := effects + [InvalidateTokens(tx)];
    // Step 2: reissue clean tokens to the sender.
    if failing == Some(Reissue) {
      return Err(StepFailure(Reissue)), effects;
    }
    var batch := env.newTokenBatch(caseId);
    effects := effects + [ReissueTokens(fromWallet, amount, caseId)];
    // Step 3: mark the transaction reversed.
    if failing == Some(Mark) {
      return Err(StepFailure(Mark)), effects;
    }
    effects := effects + [MarkReversed(tx, caseId)];
    // Step 4: the audit record.
    var reversalId := env.reversalId(caseId);
    effects := effects + [AuditReversal(reversalId, tx, caseId, amount, batch)];
    r := Ok(ReversalResponse(reversalId, tx, caseId, amount, batch, now,
                             "Reversal completed successfully"));
  }

  const AutomatedFailureMessage := "Automated reversal failed for case"

  /** The request an automated reversal makes for a case (the confidence Java appends to the
      reason is not modelled). */
  function AutomatedRequest(c: FraudCase): ReversalRequest {
    ReversalRequest(Some(c.transactionId), Some(c.caseId),
                    "Automated reversal - high fraud confidence", AutomatedFraud)
  }

  /** The part of `executeAutomatedReversal` that touches the case: the reversal, then the
      resolution as FRAUD_CONFIRMED. The failure, if any, is the first one thrown; a failed
      reversal leaves the case as it was, and resolution fails only for a case that is no
      longer under investigation. */
  method ReverseAndResolve(repo: seq<FraudCase>, env: Collaborators, c: FraudCase, now: Time)
    returns (failure: Option<Failure>, effects: seq<Effect>)
    requires c.Valid()
    modifies c`status, c`resolvedAt, c`resolution
    ensures c.Valid()
    ensures failure.None? ==>
              && old(c.status) == Investigating
              && c.status == Resolved && c.resolution == Some(FraudConfirmed)
              && effects == ReversalSteps(env, c.transactionId, c.caseId)
    ensures failure.Some? ==> c.status == old(c.status) && c.resolution == old(c.resolution)
    ensures old(ReversalAllowed(repo, env, AutomatedRequest(c))) &&
            env.failingStep(c.transactionId).None? && old(c.status) == Investigating ==>
              failure.None?
  {
    var response;
    response, effects := ExecuteReversal(repo, env, AutomatedRequest(c), now);
    if response.Err? {
      return Some(response.failure), effects;
    }
    var resolved := c.Resolve(FraudConfirmed, now);
    failure := if resolved.Done? then None else Some(resolved.failure);
  }

  /** `executeAutomatedReversal`: tracks the time of a reversal of the case and, if the
      reversal and the resolution as FRAUD_CONFIRMED both go through, completes the tracking
      and notifies the reporter. Otherwise the tracking is marked failed, the case is
      escalated and the failure is rethrown; a failed reversal leaves the case as it was.
      Either way the case's tracking record ends finished, and no other record changes. */
  method ExecuteAutomatedReversal(repo: seq<FraudCase>, tracker: ReversalTimeTracker,
                                  env: Collaborators, c: FraudCase, confidence: real, now: Time)
    returns (outcome: Outcome, effects: seq<Effect>)
    requires c.Valid() && tracker.Valid()
    modifies c, tracker
    ensures c.Valid() && tracker.Valid()
    ensures tracker.active == old(tracker.active) - {c.caseId}
    ensures c.caseId in tracker.completed
    ensures tracker.completed[c.caseId].startTime == now
    ensures tracker.completed[c.caseId].endTime == Some(env.finishedAt(c.caseId))
    ensures tracker.completed - {c.caseId} == old(tracker.completed) - {c.caseId}
    ensures outcome.Done? ==>
              && old(c.status) == Investigating
              && c.status == Resolved && c.resolution == Some(FraudConfirmed)
              && tracker.completed[c.caseId].status == Completed
    ensures old(ReversalAllowed(repo, env, AutomatedRequest(c))) &&
            env.failingStep(c.transactionId).None? && old(c.status) == Investigating ==>
              && outcome == Done
              && effects == ReversalSteps(env, c.transactionId, c.caseId) +
                            [NotifyReversalCompletion(c.reporterId, c.caseId,
                                                      env.amountOf(c.transactionId))]
    ensures outcome.Thrown? ==>
              && outcome.failure == ReversalFailed(AutomatedFailureMessage)
              && c.status == old(c.status) && c.resolution == old(c.resolution)
              && tracker.completed[c.caseId].status == Failed
              && effects != [] && effects[|effects| - 1] == EscalateToArbitration(c.caseId, confidence)
  {
    ghost var active0, completed0 := tracker.active, tracker.completed;
    tracker.StartReversal(c.caseId, now);
    assert tracker.active - {c.caseId} == active0 - {c.caseId};
    var failure;
    failure, effects := ReverseAndResolve(repo, env, c, now);
    if failure.None? {
      tracker.CompleteReversal(c.caseId, env.finishedAt(c.caseId));
      effects := effects + [NotifyReversalCompletion(c.reporterId, c.caseId,
                                                     env.amountOf(c.transactionId))];
      return Done, effects;
    }
    tracker.FailReversal(c.caseId, Some(FailureMessage(failure.value)),
                        env.finishedAt(c.caseId));
    assert tracker.completed - {c.caseId} == completed0 - {c.caseId};
    effects := effects + [EscalateToArbitration(c.caseId, confidence)];
    outcome := Thrown(ReversalFailed(AutomatedFailureMessage));
  }

  /** `processAutomatedReversal`: the confidence for the case decides; at or above the
      threshold the case is reversed, below it the case is only escalated and neither the
      case, its tokens nor the tracker are touched. */
  method ProcessAutomatedReversal(repo: seq<FraudCase>, tracker: ReversalTimeTracker,
                                  env: Collaborators, c: FraudCase, now: Time)
    returns (outcome: Outcome, effects: seq<Effect>)
    requires c.Valid() && tracker.Valid()
    modifies c, tracker
    ensures c.Valid() && tracker.Valid()
    ensures FraudConfidence(env.caseHash(c.caseId)) < AutoReversalThreshold ==>
              outcome == Done &&
              effects == [EscalateToArbitration(c.caseId, FraudConfidence(env.caseHash(c.caseId)))] &&
              unchanged(c) && unchanged(tracker)
    ensures FraudConfidence(env.caseHash(c.caseId)) >= AutoReversalThreshold ==>
              && tracker.active == old(tracker.active) - {c.caseId}
              && c.caseId in tracker.completed
              && tracker.completed - {c.caseId} == old(tracker.completed) - {c.caseId}
              && (outcome.Done? <==> c.status == Resolved && old(c.status) == Investigating)
              && (outcome.Thrown? ==> c.status == old(c.status))
    ensures tracker.active.Keys <= old(tracker.active.Keys)
    ensures old(tracker.completed.Keys) <= tracker.completed.Keys
  {
    var confidence := FraudConfidence(env.caseHash(c.caseId));
    if confidence >= AutoReversalThreshold {
      outcome, effects := ExecuteAutomatedReversal(repo, tracker, env, c, confidence, now);
      assert old(tracker.completed.Keys) <= tracker.completed.Keys by {
        forall id | id in old(tracker.completed.Keys)
          ensures id in tracker.completed.Keys
        {
          if id != c.caseId {
            assert id in old(tracker.completed) - {c.caseId};
          }
        }
      }
    } else {
      outcome := Done;
      effects := [EscalateToArbitration(c.caseId, confidence)];
    }
  }

  /** `findCasesForAutomatedResolution`: HIGH or CRITICAL cases under investigation created
      more than an hour before `now`. */
  predicate AutomatedCandidate(v: CaseView, now: Time) {
    v.status == Investigating && v.createdAt < now - Hour &&
    (v.priority == High || v.priority == Critical)
  }

  /** What processing leaves behind for one candidate: below the threshold the case is still
      under investigation and was escalated; at or above it, its reversal is no longer in
      progress and has a finished tracking record. */
  ghost predicate Handled(c: FraudCase, tracker: ReversalTimeTracker, env: Collaborators,
                          effects: seq<Effect>)
    reads c, tracker
  {
    var confidence := FraudConfidence(env.caseHash(c.caseId));
    && (confidence < AutoReversalThreshold ==>
          c.status == Investigating && EscalateToArbitration(c.caseId, confidence) in effects)
    && (confidence >= AutoReversalThreshold ==>
          c.caseId !in tracker.active && c.caseId in tracker.completed)
  }

  /** The loop of `processAutomatedReversals` over the cases it selected: every case is
      processed, whatever happened to the ones before it; a failure is reported and the
      batch goes on. */
  method ProcessCandidates(candidates: seq<FraudCase>, repo: seq<FraudCase>,
                           tracker: ReversalTimeTracker, env: Collaborators, now: Time)
    returns (effects: seq<Effect>)
    requires UniqueIds(candidates) && tracker.Valid()
    requires forall c :: c in candidates ==> c in repo
    requires forall j :: 0 <= j < |candidates| ==>
               candidates[j].Valid() && candidates[j].status == Investigating
    modifies repo, tracker
    ensures forall c :: c in repo && c !in candidates ==> unchanged(c)
    ensures tracker.Valid()
    ensures forall j :: 0 <= j < |candidates| ==> candidates[j].Valid()
    ensures forall j :: 0 <= j < |candidates| ==> Handled(candidates[j], tracker, env, effects)
  {
    effects := [];
    var i := 0;
    while i < |candidates|
      invariant 0 <= i <= |candidates|
      invariant tracker.Valid()
      invariant forall c :: c in repo && c !in candidates ==> unchanged(c)
      invariant forall j :: 0 <= j < |candidates| ==> candidates[j].Valid()
      invariant forall j :: i <= j < |candidates| ==> candidates[j].status == Investigating
      invariant forall j :: 0 <= j < i ==> Handled(candidates[j], tracker, env, effects)
    {
      var c := candidates[i];
      assert c in repo;
      ghost var effectsBefore := effects;
      var outcome, caseEffects := ProcessAutomatedReversal(repo, tracker, env, c, now);
      effects := effects + caseEffects;
      if outcome.Thrown? {
        effects := effects + [ReportError(c.caseId, FailureMessage(outcome.failure))];
      }
      assert forall e :: e in effectsBefore ==> e in effects;
      assert forall e :: e in caseEffects ==> e in effects;
      i := i + 1;
    }
  }

  /** `processAutomatedReversals`: selects the candidates and processes each of them. Cases
      that are not candidates are not touched. */
  method ProcessAutomatedReversals(repo: seq<FraudCase>, tracker: ReversalTimeTracker,
                                   env: Collaborators, now: Time)
    returns (candidates: seq<FraudCase>, effects: seq<Effect>)
    requires AllValid(repo) && UniqueIds(repo) && tracker.Valid()
    modifies repo, tracker
    ensures AllValid(repo) && tracker.Valid()
    ensures candidates == old(Where(repo, (v: CaseView) => AutomatedCandidate(v, now)))
    ensures forall c :: c in candidates ==> Handled(c, tracker, env, effects)
    ensures forall c :: c in repo && c !in candidates ==> unchanged(c)
  {
    candidates := Where(repo, (v: CaseView) => AutomatedCandidate(v, now));
    WhereUnique(repo, (v: CaseView) => AutomatedCandidate(v, now));
    forall j | 0 <= j < |candidates|
      ensures candidates[j].status == Investigating && candidates[j].Valid()
    {
      assert candidates[j] in candidates;
    }
    assert forall c :: c in candidates ==> c in repo;
    effects := ProcessCandidates(candidates, repo, tracker, env, now);
    forall c | c in candidates
      ensures Handled(c, tracker, env, effects)
    {
      var j :| 0 <= j < |candidates| && candidates[j] == c;
    }
  }

  /** `executeManualReversal`: starts time tracking for the case, runs the reversal and, only
      when it succeeds, completes the tracking. A failed reversal propagates and leaves the
      tracking record in progress; a request without a case is refused by the tracker's map,
      which takes no null key. */
  method ExecuteManualReversal(repo: seq<FraudCase>, tracker: ReversalTimeTracker,
                               env: Collaborators, req: ReversalRequest, now: Time)
    returns (r: Result<ReversalResponse>, effects: seq<Effect>)
    requires tracker.Valid()
    modifies tracker
    ensures tracker.Valid()
    ensures req.caseId.None? ==>
              r.Err? && r.failure.NullValue? && effects == [] && unchanged(tracker)
    ensures r.Ok? <==> ReversalAllowed(repo, env, req) &&
                       env.failingStep(req.transactionId.value).None?
    ensures r.Ok? ==>
              var caseId := req.caseId.value;
              && r.value.caseId == caseId
              && r.value.reversedAmount == env.amountOf(req.transactionId.value)
              && effects == ReversalSteps(env, req.transactionId.value, caseId)
              && tracker.active == old(tracker.active) - {caseId}
              && tracker.completed == old(tracker.completed)[caseId :=
                   Record(caseId, now, Some(env.finishedAt(caseId)),
                          Some(env.finishedAt(caseId) - now), Completed, None)]
              && (tracker.WasReversalWithinOneHour(caseId) <==>
                    ToMinutes(env.finishedAt(caseId) - now) <= 60)
    ensures req.caseId.Some? && !ReversalAllowed(repo, env, req) ==>
              r == Err(ValidateReversalRequest(repo, env, req).value) && effects == []
    ensures ReversalAllowed(repo, env, req) && env.failingStep(req.transactionId.value).Some? ==>
              var s := env.failingStep(req.transactionId.value).value;
              r == Err(StepFailure(s)) &&
              effects == ReversalSteps(env, req.transactionId.value, req.caseId.value)
                           [..StepsBefore(s)]
    ensures r.Err? && req.caseId.Some? ==>
              var caseId := req.caseId.value;
              && tracker.active == old(tracker.active)[caseId :=
                   Record(caseId, now, None, None, InProgress, None)]
              && tracker.completed == old(tracker.completed)
  {
    if req.caseId.None? {
      return Err(NullValue("case id")), [];
    }
    var caseId := req.caseId.value;
    tracker.StartReversal(caseId, now);
    r, effects := ExecuteReversal(repo, env, req, now);
    if r.Err? {
      return;
    }
    tracker.CompleteReversal(caseId, env.finishedAt(caseId));
  }
}
