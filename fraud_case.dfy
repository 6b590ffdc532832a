/** The fraud dispute case of the reversibility service: its enums, its lifecycle state
    machine and the guarded updates the services perform on it. */
module FraudCases {
  import opened Common

  /** Timestamps are whole seconds on one clock; the current time is always a parameter. */
  type Time = int

  const Hour: int := 3600

  /** A case must be resolved within 72 hours of its creation. */
  const ResolutionWindowHours: int := 72

  // ---------------------------------------------------------------------------------------
  // Enums and their string values

  datatype Status = Open | Investigating | Resolved | Closed

  datatype CaseType =
    UnauthorizedTransaction | AccountTakeover | Phishing | SocialEngineering | TechnicalFraud

  datatype Priority = Low | Medium | High | Critical

  datatype Resolution = FraudConfirmed | FraudDenied | InsufficientEvidence

  function StatusValue(s: Status): string {
    match s
    case Open => "open"
    case Investigating => "investigating"
    case Resolved => "resolved"
    case Closed => "closed"
  }

  /** The constant's name, which is what Java prints for an enum in a message. */
  function StatusName(s: Status): string {
    match s
    case Open => "OPEN"
    case Investigating => "INVESTIGATING"
    case Resolved => "RESOLVED"
    case Closed => "CLOSED"
  }

  function CaseTypeValue(t: CaseType): string {
    match t
    case UnauthorizedTransaction => "unauthorized_transaction"
    case AccountTakeover => "account_takeover"
    case Phishing => "phishing"
    case SocialEngineering => "social_engineering"
    case TechnicalFraud => "technical_fraud"
  }

  function PriorityValue(p: Priority): string {
    match p
    case Low => "low"
    case Medium => "medium"
    case High => "high"
    case Critical => "critical"
  }

  function ResolutionValue(r: Resolution): string {
    match r
    case FraudConfirmed => "fraud_confirmed"
    case FraudDenied => "fraud_denied"
    case InsufficientEvidence => "insufficient_evidence"
  }

  /** Each enum's `values()`, in declaration order. */
  const AllStatuses: seq<Status> := [Open, Investigating, Resolved, Closed]
  const AllCaseTypes: seq<CaseType> :=
    [UnauthorizedTransaction, AccountTakeover, Phishing, SocialEngineering, TechnicalFraud]
  const AllPriorities: seq<Priority> := [Low, Medium, High, Critical]
  const AllResolutions: seq<Resolution> := [FraudConfirmed, FraudDenied, InsufficientEvidence]

  /** `Status.fromString`: the status whose value is `v`; `None` where Java throws
      `IllegalArgumentException`. */
  function StatusFromString(v: string): (r: Option<Status>)
    ensures r.Some? ==> StatusValue(r.value) == v
    ensures r.None? <==> forall s: Status :: StatusValue(s) != v
  {
    AllListed();
    FindByValue(AllStatuses, StatusValue, v)
  }

  function CaseTypeFromString(v: string): (r: Option<CaseType>)
    ensures r.Some? ==> CaseTypeValue(r.value) == v
    ensures r.None? <==> forall t: CaseType :: CaseTypeValue(t) != v
  {
    AllListed();
    FindByValue(AllCaseTypes, CaseTypeValue, v)
  }

  function PriorityFromString(v: string): (r: Option<Priority>)
    ensures r.Some? ==> PriorityValue(r.value) == v
    ensures r.None? <==> forall p: Priority :: PriorityValue(p) != v
  {
    AllListed();
    FindByValue(AllPriorities, PriorityValue, v)
  }

  function ResolutionFromString(v: string): (r: Option<Resolution>)
    ensures r.Some? ==> ResolutionValue(r.value) == v
    ensures r.None? <==> forall x: Resolution :: ResolutionValue(x) != v
  {
    AllListed();
    FindByValue(AllResolutions, ResolutionValue, v)
  }

  /** Every constant of each enum appears in its `values()` list. */
  lemma AllListed()
    ensures forall s: Status :: s in AllStatuses
    ensures forall t: CaseType :: t in AllCaseTypes
    ensures forall p: Priority :: p in AllPriorities
    ensures forall x: Resolution :: x in AllResolutions
  {
    forall s: Status ensures s in AllStatuses {
      match s
      case Open => assert AllStatuses[0] == s;
      case Investigating => assert AllStatuses[1] == s;
      case Resolved => assert AllStatuses[2] == s;
      case Closed => assert AllStatuses[3] == s;
    }
    forall t: CaseType ensures t in AllCaseTypes {
      match t
      case UnauthorizedTransaction => assert AllCaseTypes[0] == t;
      case AccountTakeover => assert AllCaseTypes[1] == t;
      case Phishing => assert AllCaseTypes[2] == t;
      case SocialEngineering => assert AllCaseTypes[3] == t;
      case TechnicalFraud => assert AllCaseTypes[4] == t;
    }
    forall p: Priority ensures p in AllPriorities {
      match p
      case Low => assert AllPriorities[0] == p;
      case Medium => assert AllPriorities[1] == p;
      case High => assert AllPriorities[2] == p;
      case Critical => assert AllPriorities[3] == p;
    }
    forall x: Resolution ensures x in AllResolutions {
      match x
      case FraudConfirmed => assert AllResolutions[0] == x;
      case FraudDenied => assert AllResolutions[1] == x;
      case InsufficientEvidence => assert AllResolutions[2] == x;
    }
  }

  /** `fromString(getValue())` gives every constant back: the values are pairwise
      distinct. */
  lemma StatusRoundTrip(s: Status)
    ensures StatusFromString(StatusValue(s)) == Some(s)
  {
  }

  lemma CaseTypeRoundTrip(t: CaseType)
    ensures CaseTypeFromString(CaseTypeValue(t)) == Some(t)
  {
  }

  lemma PriorityRoundTrip(p: Priority)
    ensures PriorityFromString(PriorityValue(p)) == Some(p)
  {
  }

  lemma ResolutionRoundTrip(x: Resolution)
    ensures ResolutionFromString(ResolutionValue(x)) == Some(x)
  {
  }

  // ---------------------------------------------------------------------------------------
  // The lifecycle state machine

  /** Position of a status along the lifecycle. */
  function Rank(s: Status): nat {
    match s
    case Open => 0
    case Investigating => 1
    case Resolved => 2
    case Closed => 3
  }

  /** `canTransitionTo`: the allowed moves are OPEN to INVESTIGATING or CLOSED,
      INVESTIGATING to RESOLVED or CLOSED, and RESOLVED to CLOSED. Equivalently: one step
      forward along the lifecycle, or straight to CLOSED from any other status. */
  function CanTransition(from: Status, to: Status): (ok: bool)
    ensures ok <==> from != Closed && (to == Closed || Rank(to) == Rank(from) + 1)
    ensures ok ==> Rank(from) < Rank(to)
  {
    if from == to then false
    else
      match from
      case Open => to == Investigating || to == Closed
      case Investigating => to == Resolved || to == Closed
      case Resolved => to == Closed
      case Closed => false
  }

  predicate IsActiveStatus(s: Status) {
    s == Open || s == Investigating
  }

  predicate IsResolvedStatus(s: Status) {
    s == Resolved || s == Closed
  }

  /** Every status is either active or resolved, never both. */
  lemma ActiveXorResolved(s: Status)
    ensures IsActiveStatus(s) <==> !IsResolvedStatus(s)
  {
  }

  /** No legal transition makes a resolved or closed case active again. */
  lemma TransitionNeverReactivates(from: Status, to: Status)
    requires CanTransition(from, to)
    ensures IsActiveStatus(to) ==> IsActiveStatus(from)
    ensures IsResolvedStatus(from) ==> IsResolvedStatus(to)
  {
  }

  /** `getTimeRemainingHours`: whole hours left before the 72-hour deadline of a case under
      investigation; 0 in any other status or once the deadline has passed. */
  function TimeRemainingHours(status: Status, createdAt: Time, now: Time): (h: int)
    ensures h >= 0
    ensures status != Investigating || now > createdAt + ResolutionWindowHours * Hour ==> h == 0
    ensures now >= createdAt ==> h <= ResolutionWindowHours
    ensures h > 0 ==> status == Investigating &&
                      now + h * Hour <= createdAt + ResolutionWindowHours * Hour
    ensures status == Investigating && now <= createdAt + ResolutionWindowHours * Hour ==>
              createdAt + ResolutionWindowHours * Hour < now + (h + 1) * Hour
  {
    if status != Investigating then 0
    else
      var deadline := createdAt + ResolutionWindowHours * Hour;
      if now > deadline then 0
      else JavaDiv(deadline - now, Hour)
  }

  /** `isOverdue`: under investigation and created more than 72 hours before `now`. */
  predicate IsOverdueAt(status: Status, createdAt: Time, now: Time) {
    status == Investigating && createdAt < now - ResolutionWindowHours * Hour
  }

  /** An overdue case is under investigation and has no time left. */
  lemma OverdueMeansNoTimeLeft(status: Status, createdAt: Time, now: Time)
    requires IsOverdueAt(status, createdAt, now)
    ensures status == Investigating
    ensures TimeRemainingHours(status, createdAt, now) == 0
  {
  }

  // ---------------------------------------------------------------------------------------
  // Exceptions and evidence

  /** The exceptions the reversibility service throws. Messages that embed an identifier or
      a formatted number keep their constant text only. */
  datatype Failure =
    | IllegalState(message: string)
    | CannotTransition(caseId: Uuid, from: Status, to: Status)
    | IllegalArgument(message: string)
    | CaseNotFound(caseId: Uuid)
    | InvalidFraudReport(message: string)
    | ReversalFailed(message: string)
    | NullValue(message: string)
    | ServiceFailure(message: string)

  /** `getMessage()` of the exception; identifiers that Java formats into a message are left
      out. */
  function FailureMessage(f: Failure): string {
    match f
    case IllegalState(m) => m
    case CannotTransition(_, from, to) =>
      "Cannot transition case from " + StatusName(from) + " to " + StatusName(to)
    case IllegalArgument(m) => m
    case CaseNotFound(_) => "Fraud case not found"
    case InvalidFraudReport(m) => m
    case ReversalFailed(m) => m
    case NullValue(m) => m
    case ServiceFailure(m) => m
  }

  datatype Outcome = Done | Thrown(failure: Failure)

  datatype Result<T> = Ok(value: T) | Err(failure: Failure)

  /** The values an evidence map holds; a timestamp stands for `LocalDateTime.toString()`. */
  datatype EvidenceValue =
    | Text(text: string)
    | Timestamp(at: Time)
    | TextList(items: seq<string>)
    | Fields(fields: map<string, EvidenceValue>)

  type Evidence = map<string, EvidenceValue>

  function TransitionMessage(from: Status, to: Status): string {
    "Invalid state transition from " + StatusName(from) + " to " + StatusName(to)
  }

  const ResolveMessage := "Can only resolve cases that are under investigation"
  const AssignMessage := "Can only assign cases that are under investigation"
  const EscalateMessage := "Can only escalate cases that are under investigation"

  // ---------------------------------------------------------------------------------------
  // The case itself

  class FraudCase {
    const caseId: Uuid
    const transactionId: Uuid
    const reporterId: Uuid
    const caseType: CaseType
    const priority: Priority
    const createdAt: Time
    var status: Status
    var resolution: Option<Resolution>
    var resolvedAt: Option<Time>
    var evidence: Option<Evidence>
    var assignedArbitratorId: Option<Uuid>
    var assignedAt: Option<Time>
    var escalatedAt: Option<Time>
    var resolutionReasoning: Option<string>

    /** What the lifecycle guarantees about a case: a resolution time exists exactly from the
        first entry into RESOLVED on, a resolution only once the case is resolved or closed,
        and an arbitrator only with an assignment time. */
    ghost predicate Valid()
      reads this
    {
      && (status == Resolved ==> resolvedAt.Some?)
      && (resolvedAt.Some? ==> IsResolvedStatus(status))
      && (resolution.Some? ==> IsResolvedStatus(status))
      && (assignedArbitratorId.Some? ==> assignedAt.Some?)
    }

    /** The four-argument constructor (which first runs the no-argument one): a fresh case
        is OPEN, created now, with no resolution, evidence or assignment yet. */
    constructor (caseId: Uuid, transactionId: Uuid, reporterId: Uuid, caseType: CaseType,
                 priority: Priority, now: Time)
      ensures Valid()
      ensures this.caseId == caseId && this.transactionId == transactionId
      ensures this.reporterId == reporterId && this.caseType == caseType
      ensures this.priority == priority && createdAt == now
      ensures status == Open && resolution == None && resolvedAt == None
      ensures evidence == None && assignedArbitratorId == None && assignedAt == None
      ensures escalatedAt == None && resolutionReasoning == None
    {
      this.caseId := caseId;
      this.transactionId := transactionId;
      this.reporterId := reporterId;
      this.caseType := caseType;
      this.priority := priority;
      createdAt := now;
      status := Open;
      resolution := None;
      resolvedAt := None;
      evidence := None;
      assignedArbitratorId := None;
      assignedAt := None;
      escalatedAt := None;
      resolutionReasoning := None;
    }

    predicate CanTransitionTo(newStatus: Status)
      reads this
    {
      CanTransition(status, newStatus)
    }

    predicate IsActive()
      reads this
    {
      IsActiveStatus(status)
    }

    predicate IsResolved()
      reads this
    {
      IsResolvedStatus(status)
    }

    predicate IsAssigned()
      reads this
    {
      assignedArbitratorId.Some?
    }

    predicate IsOverdue(now: Time)
      reads this
    {
      IsOverdueAt(status, createdAt, now)
    }

    function GetTimeRemainingHours(now: Time): int
      reads this
    {
      TimeRemainingHours(status, createdAt, now)
    }

    /** `transitionTo`: an illegal move throws and changes nothing; a legal one sets the
        status, and the first entry into RESOLVED stamps `resolvedAt`, which is never
        overwritten afterwards. */
    method TransitionTo(newStatus: Status, now: Time) returns (outcome: Outcome)
      requires Valid()
      modifies this`status, this`resolvedAt
      ensures Valid()
      ensures outcome.Done? <==> CanTransition(old(status), newStatus)
      ensures outcome.Thrown? ==>
                outcome.failure == IllegalState(TransitionMessage(old(status), newStatus)) &&
                status == old(status) && resolvedAt == old(resolvedAt)
      ensures outcome.Done? ==> status == newStatus
      ensures outcome.Done? && newStatus == Resolved && old(resolvedAt).None? ==>
                resolvedAt == Some(now)
      ensures old(resolvedAt).Some? || newStatus != Resolved || outcome.Thrown? ==>
                resolvedAt == old(resolvedAt)
    {
      if !CanTransition(status, newStatus) {
        return Thrown(IllegalState(TransitionMessage(status, newStatus)));
      }
      status := newStatus;
      if newStatus == Resolved && resolvedAt.None? {
        resolvedAt := Some(now);
      }
      return Done;
    }

    /** `resolve`: only a case under investigation can be resolved; it ends RESOLVED with
        the given resolution. Any other case throws and is left as it was. */
    method Resolve(r: Resolution, now: Time) returns (outcome: Outcome)
      requires Valid()
      modifies this`status, this`resolvedAt, this`resolution
      ensures Valid()
      ensures old(status) == Investigating ==>
                outcome == Done && status == Resolved && resolution == Some(r) &&
                resolvedAt == (if old(resolvedAt).None? then Some(now) else old(resolvedAt))
      ensures old(status) != Investigating ==>
                outcome == Thrown(IllegalState(ResolveMessage)) &&
                status == old(status) && resolution == old(resolution) &&
                resolvedAt == old(resolvedAt)
    {
      if status != Investigating {
        return Thrown(IllegalState(ResolveMessage));
      }
      // Java records the resolution just before the transition; the transition from
      // INVESTIGATING cannot fail, so the order is not observable.
      outcome := TransitionTo(Resolved, now);
      resolution := Some(r);
    }

    /** `assignToArbitrator`: only a case under investigation can be assigned; the given
        arbitrator (possibly none) and the assignment time are recorded. */
    method AssignToArbitrator(arbitratorId: Option<Uuid>, now: Time) returns (outcome: Outcome)
      requires Valid()
      modifies this`assignedArbitratorId, this`assignedAt
      ensures Valid()
      ensures old(status) == Investigating ==>
                outcome == Done && assignedArbitratorId == arbitratorId && assignedAt == Some(now)
      ensures old(status) != Investigating ==>
                outcome == Thrown(IllegalState(AssignMessage)) &&
                assignedArbitratorId == old(assignedArbitratorId) && assignedAt == old(assignedAt)
      ensures outcome.Done? && arbitratorId.Some? ==> IsAssigned()
    {
      if status != Investigating {
        return Thrown(IllegalState(AssignMessage));
      }
      assignedArbitratorId := arbitratorId;
      assignedAt := Some(now);
      return Done;
    }

    /** `escalate`: only a case under investigation can be escalated; the time is recorded. */
    method Escalate(now: Time) returns (outcome: Outcome)
      requires Valid()
      modifies this`escalatedAt
      ensures Valid()
      ensures old(status) == Investigating ==> outcome == Done && escalatedAt == Some(now)
      ensures old(status) != Investigating ==>
                outcome == Thrown(IllegalState(EscalateMessage)) && escalatedAt == old(escalatedAt)
    {
      if status != Investigating {
        return Thrown(IllegalState(EscalateMessage));
      }
      escalatedAt := Some(now);
      return Done;
    }
  }
}
