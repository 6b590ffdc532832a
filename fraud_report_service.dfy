/** Report intake and case management: a user's fraud report becomes a case under
    investigation with frozen tokens; afterwards its status and evidence can be updated. */
module FraudReports {
  import opened Common
  import opened FraudCases
  import opened CaseStore

  datatype EvidenceData = EvidenceData(screenshots: Option<seq<string>>,
                                       additionalInfo: Option<string>)

  datatype FraudReportRequest = FraudReportRequest(
    transactionId: Option<Uuid>,
    reporterId: Option<Uuid>,
    fraudType: Option<string>,
    description: Option<string>,
    evidence: Option<EvidenceData>)

  datatype FraudReportResponse = FraudReportResponse(
    caseId: Uuid,
    status: string,
    estimatedResolution: string,
    message: string)

  const MaxDescriptionLength := 2000

  /** `String.length()`: Java counts UTF-16 code units, so a character beyond the Basic
      Multilingual Plane (an emoji, say) counts twice and any other character once. */
  function Utf16Length(s: string): (n: nat)
    ensures |s| <= n <= 2 * |s|
    ensures (forall i :: 0 <= i < |s| ==> s[i] as int < 0x1_0000) ==> n == |s|
    ensures (forall i :: 0 <= i < |s| ==> s[i] as int >= 0x1_0000) ==> n == 2 * |s|
  {
    if s == [] then 0
    else Utf16Length(s[..|s| - 1]) + (if s[|s| - 1] as int >= 0x1_0000 then 2 else 1)
  }

  /** `s.trim().isEmpty()`: Java's `trim` strips every character up to and including the
      space. */
  predicate IsBlank(s: string) {
    forall i :: 0 <= i < |s| ==> s[i] <= ' '
  }

  /** The checks of a report that come before the fraud type is parsed. */
  predicate FieldsPresent(req: FraudReportRequest) {
    && req.transactionId.Some?
    && req.reporterId.Some?
    && req.fraudType.Some? && !IsBlank(req.fraudType.value)
    && req.description.Some? && !IsBlank(req.description.value)
    && Utf16Length(req.description.value) <= MaxDescriptionLength
  }

  /** What a report must satisfy to be accepted. */
  predicate WellFormed(req: FraudReportRequest) {
    FieldsPresent(req) && CaseTypeFromString(req.fraudType.value).Some?
  }

  /** `validateFraudReport`: the checks run in a fixed order and the first one that fails
      decides the message; a report that passes them all is well formed. */
  function ValidateFraudReport(req: FraudReportRequest): (r: Option<Failure>)
    ensures r.None? <==> WellFormed(req)
    ensures req.transactionId.None? ==>
              r == Some(InvalidFraudReport("Transaction ID is required"))
    ensures req.transactionId.Some? && req.reporterId.None? ==>
              r == Some(InvalidFraudReport("Reporter ID is required"))
    ensures req.transactionId.Some? && req.reporterId.Some? &&
            (req.fraudType.None? || IsBlank(req.fraudType.value)) ==>
              r == Some(InvalidFraudReport("Fraud type is required"))
    ensures req.transactionId.Some? && req.reporterId.Some? &&
            req.fraudType.Some? && !IsBlank(req.fraudType.value) &&
            (req.description.None? || IsBlank(req.description.value)) ==>
              r == Some(InvalidFraudReport("Description is required"))
    ensures req.transactionId.Some? && req.reporterId.Some? &&
            req.fraudType.Some? && !IsBlank(req.fraudType.value) &&
            req.description.Some? && !IsBlank(req.description.value) &&
            Utf16Length(req.description.value) > MaxDescriptionLength ==>
              r == Some(InvalidFraudReport("Description cannot exceed 2000 characters"))
    ensures FieldsPresent(req) && CaseTypeFromString(req.fraudType.value).None? ==>
              r == Some(InvalidFraudReport("Invalid fraud type: " + req.fraudType.value))
  {
    if req.transactionId.None? then Some(InvalidFraudReport("Transaction ID is required"))
    else if req.reporterId.None? then Some(InvalidFraudReport("Reporter ID is required"))
    else if req.fraudType.None? || IsBlank(req.fraudType.value) then
      Some(InvalidFraudReport("Fraud type is required"))
    else if req.description.None? || IsBlank(req.description.value) then
      Some(InvalidFraudReport("Description is required"))
    else if Utf16Length(req.description.value) > MaxDescriptionLength then
      Some(InvalidFraudReport("Description cannot exceed 2000 characters"))
    else if CaseTypeFromString(req.fraudType.value).None? then
      Some(InvalidFraudReport("Invalid fraud type: " + req.fraudType.value))
    else None
  }

  /** The limit is on UTF-16 units: a description of more than 1000 characters that all lie
      beyond the Basic Multilingual Plane is too long, though it has at most 2000 of them. */
  lemma SupplementaryCharactersCountTwice(req: FraudReportRequest)
    requires req.transactionId.Some? && req.reporterId.Some?
    requires req.fraudType.Some? && !IsBlank(req.fraudType.value)
    requires req.description.Some? && |req.description.value| > MaxDescriptionLength / 2
    requires forall i :: 0 <= i < |req.description.value| ==>
               req.description.value[i] as int >= 0x1_0000
    ensures ValidateFraudReport(req) ==
              Some(InvalidFraudReport("Description cannot exceed 2000 characters"))
  {
    assert req.description.value[0] > ' ';
  }

  function PriorityRank(p: Priority): nat {
    match p
    case Low => 0
    case Medium => 1
    case High => 2
    case Critical => 3
  }

  /** `determinePriority`: the transaction amount decides first, then the kind of fraud. */
  function DeterminePriority(amount: real, fraudType: string): (p: Priority)
    ensures p != Low
    ensures p == Critical <==> amount > 10000.0
    ensures 1000.0 < amount <= 10000.0 ==> p == High
    ensures amount <= 1000.0 ==>
              (p == High <==> fraudType == "account_takeover" || fraudType == "technical_fraud")
  {
    if amount > 10000.0 then Critical
    else if amount > 1000.0 then High
    else if fraudType == "account_takeover" || fraudType == "technical_fraud" then High
    else Medium
  }

  /** A larger amount never lowers the priority of the same kind of fraud. */
  lemma PriorityMonotoneInAmount(a1: real, a2: real, fraudType: string)
    requires a1 <= a2
    ensures PriorityRank(DeterminePriority(a1, fraudType)) <=
            PriorityRank(DeterminePriority(a2, fraudType))
  {
  }

  /** `getEstimatedResolutionTime`. */
  function EstimatedResolutionTime(p: Priority): (t: string)
    ensures t == "5 business days" <==> p == Low
  {
    match p
    case Critical => "24 hours"
    case High => "48 hours"
    case Medium => "72 hours"
    case Low => "5 business days"
  }

  /** Since report intake never assigns LOW, every estimate it quotes is within the 72-hour
      resolution window. */
  lemma IntakeEstimateWithinWindow(amount: real, fraudType: string)
    ensures EstimatedResolutionTime(DeterminePriority(amount, fraudType))
              in {"24 hours", "48 hours", "72 hours"}
  {
  }

  /** The initial evidence map of a report. `Map.of` rejects null values, so a report that
      carries an evidence object with a missing field has none (Java throws a
      `NullPointerException`). */
  function InitialEvidence(description: string, evidence: Option<EvidenceData>, now: Time)
    : (r: Option<Evidence>)
    ensures r.Some? <==>
              evidence.None? || (evidence.value.screenshots.Some? &&
                                 evidence.value.additionalInfo.Some?)
    ensures r.Some? ==>
              r.value.Keys == {"userReport", "screenshots", "additionalInfo", "reportTimestamp"} &&
              r.value["userReport"] == Text(description) &&
              r.value["reportTimestamp"] == Timestamp(now)
    ensures r.Some? && evidence.None? ==>
              r.value["screenshots"] == TextList([]) && r.value["additionalInfo"] == Text("")
  {
    if evidence.Some? && (evidence.value.screenshots.None? ||
                          evidence.value.additionalInfo.None?) then None
    else
      var screenshots := if evidence.Some? then evidence.value.screenshots.value else [];
      var info := if evidence.Some? then evidence.value.additionalInfo.value else "";
      Some(map["userReport" := Text(description), "screenshots" := TextList(screenshots),
               "additionalInfo" := Text(info), "reportTimestamp" := Timestamp(now)])
  }

  const SubmittedMessage := "Fraud report submitted successfully. Disputed tokens have been frozen."

  /** The case a report opens: created OPEN with the report's evidence, then moved to
      INVESTIGATING (the move from OPEN cannot fail). */
  method OpenCase(caseId: Uuid, transactionId: Uuid, reporterId: Uuid, caseType: CaseType,
                  priority: Priority, evidence: Evidence, now: Time) returns (c: FraudCase)
    ensures fresh(c) && c.Valid()
    ensures c.caseId == caseId && c.transactionId == transactionId
    ensures c.reporterId == reporterId && c.caseType == caseType
    ensures c.priority == priority && c.createdAt == now
    ensures c.status == Investigating && c.resolution.None? && c.resolvedAt.None?
    ensures c.evidence == Some(evidence)
  {
    c := new FraudCase(caseId, transactionId, reporterId, caseType, priority, now);
    c.evidence := Some(evidence);
    var moved := c.TransitionTo(Investigating, now);
  }

  /** `submitFraudReport`. A valid report for a transaction that the transaction service
      accepts and that has no active case becomes a new case, which is stored, has its
      tokens frozen and its evidence collection started, and ends INVESTIGATING; the reporter
      is notified. Every rejection leaves the repository as it was and calls no one.
      At most one active case per transaction is preserved. */
  method SubmitFraudReport(repo: seq<FraudCase>, env: Collaborators, req: FraudReportRequest,
                           newCaseId: Uuid, now: Time)
    returns (r: Result<FraudReportResponse>, repo': seq<FraudCase>, effects: seq<Effect>)
    requires AllValid(repo) && UniqueIds(repo)
    requires forall c :: c in repo ==> c.caseId != newCaseId
    ensures AllValid(repo') && UniqueIds(repo')
    ensures OneActivePerTransaction(repo) ==> OneActivePerTransaction(repo')
    ensures r.Err? ==> repo' == repo && effects == []
    ensures !WellFormed(req) ==> r == Err(ValidateFraudReport(req).value)
    ensures WellFormed(req) && !env.validForFraudReport(req.transactionId.value) ==>
              r == Err(InvalidFraudReport("Transaction is not valid for fraud reporting"))
    ensures WellFormed(req) && env.validForFraudReport(req.transactionId.value) &&
            FindActiveByTransactionId(repo, req.transactionId.value).Some? ==>
              r == Err(InvalidFraudReport("Active fraud case already exists for this transaction"))
    ensures WellFormed(req) && env.validForFraudReport(req.transactionId.value) &&
            FindActiveByTransactionId(repo, req.transactionId.value).None? &&
            InitialEvidence(req.description.value, req.evidence, now).None? ==>
              r.Err? && r.failure.NullValue?
    ensures r.Ok? ==>
              WellFormed(req) &&
              var tx := req.transactionId.value;
              var priority := DeterminePriority(env.amountOf(tx), req.fraudType.value);
              && |repo'| == |repo| + 1 && repo'[..|repo|] == repo
              && var c := repo'[|repo|];
              && fresh(c)
              && c.caseId == newCaseId && c.transactionId == tx
              && c.reporterId == req.reporterId.value
              && Some(c.caseType) == CaseTypeFromString(req.fraudType.value)
              && c.priority == priority && c.createdAt == now
              && c.status == Investigating && c.resolution.None? && c.resolvedAt.None?
              && c.evidence == InitialEvidence(req.description.value, req.evidence, now)
              && r.value == FraudReportResponse(newCaseId, "investigating",
                                                EstimatedResolutionTime(priority), SubmittedMessage)
              && effects == [FreezeTokens(tx, newCaseId), StartEvidenceCollection(newCaseId),
                             NotifyReportConfirmation(req.reporterId.value, newCaseId)]
    ensures r.Ok? <==>
              WellFormed(req) && env.validForFraudReport(req.transactionId.value) &&
              FindActiveByTransactionId(repo, req.transactionId.value).None? &&
              InitialEvidence(req.description.value, req.evidence, now).Some?
  {
    repo' := repo;
    effects := [];
    var invalid := ValidateFraudReport(req);
    if invalid.Some? {
      return Err(invalid.value), repo', effects;
    }
    var tx := req.transactionId.value;
    var reporter := req.reporterId.value;
    if !env.validForFraudReport(tx) {
      return Err(InvalidFraudReport("Transaction is not valid for fraud reporting")), repo', effects;
    }
    if FindActiveByTransactionId(repo, tx).Some? {
      r := Err(InvalidFraudReport("Active fraud case already exists for this transaction"));
      return r, repo', effects;
    }
    var priority := DeterminePriority(env.amountOf(tx), req.fraudType.value);
    var caseType := CaseTypeFromString(req.fraudType.value).value;
    var evidence := InitialEvidence(req.description.value, req.evidence, now);
    if evidence.None? {
      return Err(NullValue("evidence value")), repo', effects;
    }
    var c := OpenCase(newCaseId, tx, reporter, caseType, priority, evidence.value, now);
    repo' := repo + [c];
    effects := effects + [FreezeTokens(tx, c.caseId), StartEvidenceCollection(c.caseId),
                          NotifyReportConfirmation(reporter, c.caseId)];
    r := Ok(FraudReportResponse(c.caseId, StatusValue(c.status),
                                EstimatedResolutionTime(priority), SubmittedMessage));
    AppendCase(repo, c);
  }

  /** Storing a case whose identifier is new, and whose transaction has no active case,
      keeps the repository's invariants. */
  lemma AppendCase(repo: seq<FraudCase>, c: FraudCase)
    requires AllValid(repo) && UniqueIds(repo) && c.Valid()
    requires forall d :: d in repo ==> d.caseId != c.caseId
    ensures AllValid(repo + [c]) && UniqueIds(repo + [c])
    ensures OneActivePerTransaction(repo) &&
            (forall d :: d in repo && d.transactionId == c.transactionId ==>
               !IsActiveStatus(d.status)) ==>
              OneActivePerTransaction(repo + [c])
  {
    var r := repo + [c];
    forall i, j | 0 <= i < j < |r|
      ensures r[i].caseId != r[j].caseId
    {
      if j == |repo| { assert r[i] in repo; }
    }
    if OneActivePerTransaction(repo) &&
       (forall d :: d in repo && d.transactionId == c.transactionId ==> !IsActiveStatus(d.status)) {
      forall i, j | 0 <= i < j < |r| && r[i].transactionId == r[j].transactionId
        ensures !(IsActiveStatus(r[i].status) && IsActiveStatus(r[j].status))
      {
        if j == |repo| { assert r[i] in repo; }
      }
    }
  }

  /** `updateCaseStatus`: a missing case or an illegal move throws and changes nothing;
      otherwise the case moves and the reporter is told the new status. No case becomes
      active again, so at most one active case per transaction is preserved. */
  method UpdateCaseStatus(repo: seq<FraudCase>, caseId: Uuid, newStatus: Status, now: Time)
    returns (r: Result<FraudCase>, effects: seq<Effect>)
    requires AllValid(repo)
    modifies repo
    ensures AllValid(repo)
    ensures old(OneActivePerTransaction(repo)) ==> OneActivePerTransaction(repo)
    ensures FindById(repo, caseId).None? ==> r == Err(CaseNotFound(caseId)) && effects == []
    ensures FindById(repo, caseId).Some? ==>
              var c := FindById(repo, caseId).value;
              && (!CanTransition(old(c.status), newStatus) ==>
                    r == Err(CannotTransition(caseId, old(c.status), newStatus)) &&
                    effects == [] && c.status == old(c.status))
              && (CanTransition(old(c.status), newStatus) ==>
                    r == Ok(c) && c.status == newStatus &&
                    c.resolvedAt == (if newStatus == Resolved && old(c.resolvedAt).None?
                                     then Some(now) else old(c.resolvedAt)) &&
                    unchanged(c`resolution, c`evidence, c`assignedArbitratorId, c`assignedAt,
                              c`escalatedAt, c`resolutionReasoning) &&
                    effects == [NotifyCaseStatus(c.reporterId, caseId, StatusValue(newStatus))])
    ensures r.Err? ==> forall d :: d in repo ==> unchanged(d)
    ensures forall d :: d in repo && d.caseId != caseId ==> unchanged(d)
  {
    effects := [];
    var found := FindById(repo, caseId);
    if found.None? {
      return Err(CaseNotFound(caseId)), effects;
    }
    var c := found.value;
    if !CanTransition(c.status, newStatus) {
      return Err(CannotTransition(caseId, c.status, newStatus)), effects;
    }
    ghost var before := c.status;
    var moved := c.TransitionTo(newStatus, now);
    TransitionNeverReactivates(before, newStatus);
    effects := [NotifyCaseStatus(c.reporterId, caseId, StatusValue(newStatus))];
    r := Ok(c);
  }

  /** The evidence merge of `addEvidence`: every earlier key is kept, every added key is
      present, and an added value wins over an earlier one. */
  function MergeEvidence(current: Option<Evidence>, added: Evidence): (merged: Evidence)
    ensures merged.Keys == (if current.Some? then current.value.Keys else {}) + added.Keys
    ensures forall k :: k in added ==> merged[k] == added[k]
    ensures current.Some? ==>
              forall k :: k in current.value && k !in added ==> merged[k] == current.value[k]
  {
    if current.None? then added else current.value + added
  }

  /** `addEvidence`: only an active case takes new evidence, which is merged into what it
      has. */
  method AddEvidence(repo: seq<FraudCase>, caseId: Uuid, added: Evidence)
    returns (r: Result<FraudCase>)
    requires AllValid(repo)
    modifies repo
    ensures AllValid(repo)
    ensures FindById(repo, caseId).None? ==> r == Err(CaseNotFound(caseId))
    ensures FindById(repo, caseId).Some? ==>
              var c := FindById(repo, caseId).value;
              && (!IsActiveStatus(c.status) ==>
                    r == Err(IllegalState("Cannot add evidence to inactive case")) &&
                    c.evidence == old(c.evidence))
              && (IsActiveStatus(c.status) ==>
                    r == Ok(c) && c.evidence == Some(MergeEvidence(old(c.evidence), added)) &&
                    unchanged(c`status, c`resolution, c`resolvedAt, c`assignedArbitratorId,
                              c`assignedAt, c`escalatedAt, c`resolutionReasoning))
    ensures r.Err? ==> forall d :: d in repo ==> unchanged(d)
    ensures forall d :: d in repo ==> d.status == old(d.status)
    ensures forall d :: d in repo && d.caseId != caseId ==> unchanged(d)
  {
    var found := FindById(repo, caseId);
    if found.None? {
      return Err(CaseNotFound(caseId));
    }
    var c := found.value;
    if !c.IsActive() {
      return Err(IllegalState("Cannot add evidence to inactive case"));
    }
    c.evidence := Some(MergeEvidence(c.evidence, added));
    r := Ok(c);
  }

  /** `getActiveFraudCases`: exactly the OPEN and INVESTIGATING cases. */
  function GetActiveFraudCases(repo: seq<FraudCase>): (r: seq<FraudCase>)
    reads repo
    ensures forall c :: c in r ==> c in repo && IsActiveStatus(c.status)
    ensures forall c :: c in repo && IsActiveStatus(c.status) ==> c in r
  {
    Where(repo, (v: CaseView) => IsActiveStatus(v.status))
  }
}
