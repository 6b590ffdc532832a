/** The fraud-case repository seen as its current contents, in storage order, together with
    the queries the services run against it, and the calls the services make to the
    collaborators they do not own (notifications, logging, token and transaction services),
    recorded as a trace. */
module CaseStore {
  import opened Common
  import opened FraudCases

  /** The fields of a case that the repository queries select on, read at one moment. */
  datatype CaseView = CaseView(
    caseId: Uuid,
    transactionId: Uuid,
    reporterId: Uuid,
    priority: Priority,
    createdAt: Time,
    status: Status,
    assignedArbitratorId: Option<Uuid>,
    escalatedAt: Option<Time>)

  function View(c: FraudCase): CaseView
    reads c
  {
    CaseView(c.caseId, c.transactionId, c.reporterId, c.priority, c.createdAt, c.status,
             c.assignedArbitratorId, c.escalatedAt)
  }

  function Views(repo: seq<FraudCase>): (vs: seq<CaseView>)
    reads repo
    ensures |vs| == |repo| && forall i :: 0 <= i < |repo| ==> vs[i] == View(repo[i])
  {
    if repo == [] then [] else [View(repo[0])] + Views(repo[1..])
  }

  /** The case identifier is the primary key. */
  predicate UniqueIds(repo: seq<FraudCase>) {
    forall i, j :: 0 <= i < j < |repo| ==> repo[i].caseId != repo[j].caseId
  }

  ghost predicate AllValid(repo: seq<FraudCase>)
    reads repo
  {
    forall c :: c in repo ==> c.Valid()
  }

  /** `findById`. */
  function FindById(repo: seq<FraudCase>, caseId: Uuid): (r: Option<FraudCase>)
    ensures r.Some? ==> r.value in repo && r.value.caseId == caseId
    ensures r.None? ==> forall c :: c in repo ==> c.caseId != caseId
  {
    if repo == [] then None
    else if repo[0].caseId == caseId then Some(repo[0])
    else FindById(repo[1..], caseId)
  }

  /** With unique identifiers, a stored case is found under its own identifier. */
  lemma {:induction false} FindStored(repo: seq<FraudCase>, c: FraudCase)
    requires UniqueIds(repo) && c in repo
    ensures FindById(repo, c.caseId) == Some(c)
  {
    if repo[0] != c {
      assert c in repo[1..];
      FindStored(repo[1..], c);
    }
  }

  /** The cases whose current view satisfies `keep`, in storage order: the meaning of each
      `findBy...` query of the repository. */
  function Where(repo: seq<FraudCase>, keep: CaseView -> bool): (r: seq<FraudCase>)
    reads repo
    ensures |r| <= |repo|
    ensures forall c :: c in r ==> c in repo && keep(View(c))
    ensures forall c :: c in repo && keep(View(c)) ==> c in r
  {
    if repo == [] then []
    else if keep(View(repo[0])) then [repo[0]] + Where(repo[1..], keep)
    else Where(repo[1..], keep)
  }

  /** A query that no case satisfies returns nothing. */
  lemma WhereNone(repo: seq<FraudCase>, keep: CaseView -> bool)
    requires forall c :: c in repo ==> !keep(View(c))
    ensures Where(repo, keep) == []
  {
  }

  /** A query over distinct cases returns distinct cases. */
  lemma {:induction false} WhereUnique(repo: seq<FraudCase>, keep: CaseView -> bool)
    requires UniqueIds(repo)
    ensures UniqueIds(Where(repo, keep))
  {
    if repo != [] {
      var rest := Where(repo[1..], keep);
      WhereUnique(repo[1..], keep);
      forall c | c in rest
        ensures c.caseId != repo[0].caseId
      {
        var k :| 0 <= k < |repo[1..]| && repo[1..][k] == c;
        assert repo[k + 1] == c;
      }
    }
  }

  /** `findActiveByTransactionId`: a case of the transaction that is OPEN or INVESTIGATING. */
  function FindActiveByTransactionId(repo: seq<FraudCase>, transactionId: Uuid)
    : (r: Option<FraudCase>)
    reads repo
    ensures r.Some? ==> r.value in repo && r.value.transactionId == transactionId &&
                        IsActiveStatus(r.value.status)
    ensures r.None? ==>
              forall c :: c in repo && c.transactionId == transactionId ==> !IsActiveStatus(c.status)
  {
    if repo == [] then None
    else if repo[0].transactionId == transactionId && IsActiveStatus(repo[0].status) then
      Some(repo[0])
    else FindActiveByTransactionId(repo[1..], transactionId)
  }

  /** No transaction has two active cases: the rule report intake enforces. */
  ghost predicate OneActivePerTransaction(repo: seq<FraudCase>)
    reads repo
  {
    forall i, j :: 0 <= i < j < |repo| && repo[i].transactionId == repo[j].transactionId ==>
      !(IsActiveStatus(repo[i].status) && IsActiveStatus(repo[j].status))
  }

  // ---------------------------------------------------------------------------------------
  // Collaborators

  /** A call to a collaborator, in the order the service makes it. */
  datatype Effect =
    | FreezeTokens(transactionId: Uuid, caseId: Uuid)
    | UnfreezeTokens(transactionId: Uuid, caseId: Uuid)
    | StartEvidenceCollection(caseId: Uuid)
    | NotifyReportConfirmation(reporterId: Uuid, caseId: Uuid)
    | NotifyCaseStatus(reporterId: Uuid, caseId: Uuid, status: string)
    | LogAssignment(caseId: Uuid, arbitratorId: Option<Uuid>, notes: Option<string>)
    | NotifyArbitrationAssignment(arbitratorId: Option<Uuid>, caseId: Uuid, priority: string)
    | LogDecision(caseId: Uuid, arbitratorId: Option<Uuid>, decision: string, reasoning: string)
    | NotifyDecision(reporterId: Uuid, caseId: Uuid, decision: string, reasoning: string)
    | LogEscalation(caseId: Uuid, arbitratorId: Option<Uuid>, reason: string)
    | NotifyEscalation(caseId: Uuid, arbitratorId: Option<Uuid>, priority: string)
    | LogEscalationBatch(count: nat)
    | InvalidateTokens(transactionId: Uuid)
    | ReissueTokens(wallet: Uuid, amount: real, caseId: Uuid)
    | MarkReversed(transactionId: Uuid, caseId: Uuid)
    | AuditReversal(reversalId: Uuid, transactionId: Uuid, caseId: Uuid, amount: real,
                    newTokenBatch: Uuid)
    | NotifyReversalCompletion(reporterId: Uuid, caseId: Uuid, amount: real)
    | EscalateToArbitration(caseId: Uuid, confidence: real)
    | ReportError(caseId: Uuid, message: string)

  /** The reversal steps that call out of the service and may throw. */
  datatype ReversalStep = Invalidate | Reissue | Mark

  /** What the collaborators answer. Identifiers the services generate at random are drawn
      from here as well, as functions of the case they are made for, and so is the clock
      reading at which the reversal of a case finishes, when the time tracker stamps its end. */
  datatype Collaborators = Collaborators(
    validForFraudReport: Uuid -> bool,
    eligibleForReversal: Uuid -> bool,
    amountOf: Uuid -> real,
    fromWalletOf: Uuid -> Uuid,
    caseHash: Uuid -> Int32,
    failingStep: Uuid -> Option<ReversalStep>,
    newTokenBatch: Uuid -> Uuid,
    reversalId: Uuid -> Uuid,
    finishedAt: Uuid -> Time)
}
