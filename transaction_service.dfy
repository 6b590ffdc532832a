/** The transaction service: request validation, the balance transfer of one transaction,
    the success/failure counters and the bounded record of processing times. Balances are
    kept per wallet and currency; a wallet never seen before has a balance of 0. */
module Transactions {
  import opened Common
  import opened Errors

  datatype Currency = USDCBDC | EURCBDC | GBPCBDC | Other(name: string)

  predicate IsSupported(c: Currency) {
    !c.Other?
  }

  datatype TransactionStatus = Pending | Completed | Failed | Reversed

  datatype TransactionRequest = TransactionRequest(
    fromWallet: Uuid,
    toWallet: Uuid,
    amount: real,
    currency: Currency)

  datatype Transaction = Transaction(
    id: Uuid,
    fromWallet: Uuid,
    toWallet: Uuid,
    amount: real,
    currency: Currency,
    status: TransactionStatus)

  const MaxAmount: real := 1000000000.0

  function InvalidTransaction(message: string): Option<Fault> {
    Some(TransactionFault(ErrInvalidTransaction, message))
  }

  /** `validateTransactionRequest`: the checks in order, each an invalid-transaction error. */
  function ValidateTransactionRequest(req: TransactionRequest): (r: Option<Fault>)
    ensures r.None? <==> req.fromWallet != req.toWallet && req.fromWallet != NilUuid &&
                         req.toWallet != NilUuid && 0.0 < req.amount <= MaxAmount &&
                         IsSupported(req.currency)
    ensures r.Some? ==> r.value.code == ErrInvalidTransaction &&
                        r.value.service == TransactionServiceName
    ensures req.fromWallet == req.toWallet ==>
              r == InvalidTransaction("cannot transfer to the same wallet")
    ensures req.fromWallet != req.toWallet && req.amount <= 0.0 &&
            req.fromWallet != NilUuid && req.toWallet != NilUuid ==>
              r == InvalidTransaction("transaction amount must be positive")
  {
    if req.fromWallet == req.toWallet then InvalidTransaction("cannot transfer to the same wallet")
    else if req.fromWallet == NilUuid || req.toWallet == NilUuid then
      InvalidTransaction("wallet IDs cannot be nil")
    else if req.amount <= 0.0 then InvalidTransaction("transaction amount must be positive")
    else if req.amount > MaxAmount then
      InvalidTransaction("transaction amount exceeds maximum limit")
    else if !IsSupported(req.currency) then InvalidTransaction("unsupported currency")
    else None
  }

  // ---------------------------------------------------------------------------------------
  // Balances

  type Balances = map<(Uuid, Currency), real>

  /** The balance of a wallet in a currency; a missing row reads as a fresh zero balance. */
  function BalanceOf(b: Balances, wallet: Uuid, currency: Currency): real {
    if (wallet, currency) in b then b[(wallet, currency)] else 0.0
  }

  /** The balance step of `processTransactionAtomic` on values: refused for insufficient
      funds, otherwise both rows written with the moved amount. */
  function Transfer(b: Balances, from: Uuid, to: Uuid, currency: Currency, amount: real)
    : Option<Balances>
  {
    var fromBalance := BalanceOf(b, from, currency);
    if fromBalance < amount then None
    else
      var toBalance := BalanceOf(b, to, currency);
      Some(b[(from, currency) := fromBalance - amount][(to, currency) := toBalance + amount])
  }

  /** A transfer between two different wallets succeeds exactly when the sender holds the
      amount; then the sender loses and the recipient gains exactly the amount, their sum is
      unchanged, the sender is not overdrawn, and no other balance moves. */
  lemma TransferConserves(b: Balances, from: Uuid, to: Uuid, currency: Currency, amount: real)
    requires from != to
    ensures Transfer(b, from, to, currency, amount).Some? <==>
              BalanceOf(b, from, currency) >= amount
    ensures var after := Transfer(b, from, to, currency, amount);
            after.Some? ==>
              BalanceOf(after.value, from, currency) == BalanceOf(b, from, currency) - amount &&
              BalanceOf(after.value, to, currency) == BalanceOf(b, to, currency) + amount &&
              BalanceOf(after.value, from, currency) + BalanceOf(after.value, to, currency) ==
                BalanceOf(b, from, currency) + BalanceOf(b, to, currency) &&
              BalanceOf(after.value, from, currency) >= 0.0 &&
              forall w: Uuid, c: Currency :: (w, c) != (from, currency) && (w, c) != (to, currency) ==>
                BalanceOf(after.value, w, c) == BalanceOf(b, w, c)
  {
  }

  // ---------------------------------------------------------------------------------------
  // Metrics

  const MaxSamples := 1000

  /** The last `n` entries of `s` (all of them when there are fewer). */
  function LastN(s: seq<int>, n: nat): (r: seq<int>)
    ensures |r| == if |s| <= n then |s| else n
    ensures forall i :: 0 <= i < |r| ==> r[i] == s[|s| - |r| + i]
  {
    if |s| <= n then s else s[|s| - n..]
  }

  /** `TransactionMetrics`. `recorded` is every processing time ever recorded, of which the
      service keeps the newest 1000. */
  class TransactionMetrics {
    var processingTimes: seq<int>
    var successCount: int
    var failureCount: int
    ghost var recorded: seq<int>

    ghost predicate Valid()
      reads this
    {
      processingTimes == LastN(recorded, MaxSamples)
    }

    constructor()
      ensures processingTimes == [] && successCount == 0 && failureCount == 0
      ensures recorded == [] && Valid()
    {
      processingTimes := [];
      successCount := 0;
      failureCount := 0;
      recorded := [];
    }

    /** `recordProcessingTime`: append, then drop the oldest sample beyond 1000. */
    method RecordProcessingTime(duration: int)
      requires Valid()
      modifies this`processingTimes, this`recorded
      ensures Valid() && recorded == old(recorded) + [duration]
      ensures |processingTimes| <= MaxSamples
      ensures processingTimes[|processingTimes| - 1] == duration
      ensures processingTimes == if |old(processingTimes)| < MaxSamples
                                 then old(processingTimes) + [duration]
                                 else old(processingTimes)[1..] + [duration]
    {
      recorded := recorded + [duration];
      processingTimes := processingTimes + [duration];
      if |processingTimes| > MaxSamples {
        processingTimes := processingTimes[1..];
      }
    }

    method RecordSuccess()
      modifies this`successCount
      ensures successCount == old(successCount) + 1
    {
      successCount := successCount + 1;
    }

    method RecordFailure()
      modifies this`failureCount
      ensures failureCount == old(failureCount) + 1
    {
      failureCount := failureCount + 1;
    }

    /** `GetServiceMetrics`: a new object with a copy of the samples and the counters, so
        that changing it leaves this one alone. */
    method Snapshot() returns (copy: TransactionMetrics)
      ensures fresh(copy)
      ensures copy.processingTimes == processingTimes
      ensures copy.successCount == successCount && copy.failureCount == failureCount
    {
      copy := new TransactionMetrics();
      copy.processingTimes := processingTimes;
      copy.successCount := successCount;
      copy.failureCount := failureCount;
    }
  }

  /** Keeping the newest 1000 after each append is keeping the newest 1000 overall. */
  lemma {:induction false} LastNAppend(s: seq<int>, x: int, n: nat)
    requires n > 0
    ensures LastN(s + [x], n) ==
            if |LastN(s, n)| < n then LastN(s, n) + [x] else LastN(s, n)[1..] + [x]
  {
    if |s| < n {
      assert LastN(s, n) == s;
      assert LastN(s + [x], n) == s + [x];
    } else {
      assert LastN(s, n) == s[|s| - n..];
      assert LastN(s + [x], n) == (s + [x])[|s| + 1 - n..];
      assert (s + [x])[|s| + 1 - n..] == s[|s| - n..][1..] + [x];
    }
  }

  // ---------------------------------------------------------------------------------------
  // Processing

  datatype EventKind = TransactionCreated | TransactionCompleted | TransactionFailed

  /** What a call publishes, in order: transaction events and status-tracker messages. */
  datatype Notice = Event(kind: EventKind) | StatusMessage(message: string)

  const CreatedMessage := "Transaction created and processing"
  const CompletedMessage := "Transaction completed successfully"

  /** The refusal of a transfer the sender cannot cover, and the failure of a store write
      (either balance row, or saving the transaction). */
  const InsufficientFunds: Option<Fault> := Some(TransactionFault(ErrInsufficientFunds, "insufficient funds"))
  const StoreFailed: Option<Fault> := Some(TransactionFault(ErrTransactionFailed, "failed to update balance"))

  datatype ProcessOutcome = ProcessOutcome(result: Result<Transaction>, published: seq<Notice>,
                                           balances: Balances)

  /** What processing `req` does to the balances, answers and publishes. */
  function Process(b: Balances, req: TransactionRequest, id: Uuid, createFails: bool,
                   storeFails: bool): ProcessOutcome
  {
    var fault := ValidateTransactionRequest(req);
    if fault.Some? then ProcessOutcome(Err(fault.value), [], b)
    else if createFails then
      ProcessOutcome(Err(TransactionFault(ErrInvalidTransaction, "failed to create transaction")),
                     [], b)
    else
      var started := [Event(TransactionCreated), StatusMessage(CreatedMessage)];
      match Transfer(b, req.fromWallet, req.toWallet, req.currency, req.amount)
      case None =>
        ProcessOutcome(Err(InsufficientFunds.value),
                       started + [Event(TransactionFailed)], b)
      case Some(moved) =>
        if storeFails then
          ProcessOutcome(Err(StoreFailed.value),
                         started + [Event(TransactionFailed)], b)
        else
          ProcessOutcome(Ok(Transaction(id, req.fromWallet, req.toWallet, req.amount, req.currency,
                                        Completed)),
                         started + [Event(TransactionCompleted), StatusMessage(CompletedMessage)],
                         moved)
  }

  /** Processing succeeds exactly for a valid request whose sender holds the amount (and a
      working store); it then moves exactly the amount and reports the transaction completed.
      A failure changes no balance, and only a request that got past validation and creation
      publishes anything. */
  lemma ProcessMeaning(b: Balances, req: TransactionRequest, id: Uuid, createFails: bool,
                       storeFails: bool)
    ensures var o := Process(b, req, id, createFails, storeFails);
            (o.result.Ok? <==> ValidateTransactionRequest(req).None? && !createFails &&
                               BalanceOf(b, req.fromWallet, req.currency) >= req.amount &&
                               !storeFails) &&
            (o.result.Err? ==> o.balances == b) &&
            (o.result.Ok? ==>
               o.result.value.status == Completed && o.result.value.amount == req.amount &&
               BalanceOf(o.balances, req.fromWallet, req.currency) ==
                 BalanceOf(b, req.fromWallet, req.currency) - req.amount &&
               BalanceOf(o.balances, req.toWallet, req.currency) ==
                 BalanceOf(b, req.toWallet, req.currency) + req.amount) &&
            (ValidateTransactionRequest(req).Some? ==>
               o.result == Err(ValidateTransactionRequest(req).value) && o.published == []) &&
            (ValidateTransactionRequest(req).None? && !createFails &&
             BalanceOf(b, req.fromWallet, req.currency) < req.amount ==>
               o.result.Err? && o.result.fault.code == ErrInsufficientFunds)
  {
    if ValidateTransactionRequest(req).None? && !createFails {
      TransferConserves(b, req.fromWallet, req.toWallet, req.currency, req.amount);
    }
  }

  class TransactionService {
    var balances: Balances
    const metrics: TransactionMetrics

    ghost predicate Valid()
      reads this, metrics
    {
      metrics.Valid()
    }

    constructor(balances: Balances)
      ensures this.balances == balances && fresh(metrics)
      ensures metrics.processingTimes == [] && metrics.recorded == []
      ensures metrics.successCount == 0 && metrics.failureCount == 0
      ensures Valid()
    {
      this.balances := balances;
      metrics := new TransactionMetrics();
    }

    /** The transactional part: the funds check, then both balance rows, or nothing at all
        when the store fails (a rolled back database transaction). */
    method ProcessAtomic(t: Transaction, storeFails: bool) returns (fault: Option<Fault>)
      requires t.fromWallet != t.toWallet
      modifies this`balances
      ensures var moved := Transfer(old(balances), t.fromWallet, t.toWallet, t.currency, t.amount);
              (moved.None? ==> fault == InsufficientFunds) &&
              (moved.Some? && storeFails ==> fault == StoreFailed) &&
              (moved.Some? && !storeFails ==> fault.None? && balances == moved.value) &&
              (fault.Some? ==> balances == old(balances))
    {
      var fromBalance := BalanceOf(balances, t.fromWallet, t.currency);
      if fromBalance < t.amount {
        return InsufficientFunds;
      }
      var toBalance := BalanceOf(balances, t.toWallet, t.currency);
      if storeFails {
        return StoreFailed;
      }
      balances := balances[(t.fromWallet, t.currency) := fromBalance - t.amount];
      balances := balances[(t.toWallet, t.currency) := toBalance + t.amount];
      fault := None;
    }

    /** `ProcessTransaction`. `duration` is the measured processing time, `id` the new
        transaction's identifier; `createFails` and `storeFails` stand for a refusal by the
        transaction model and a failing database. Every call records its processing time
        and counts exactly one success or one failure. */
    method ProcessTransaction(req: TransactionRequest, id: Uuid, duration: int,
                              createFails: bool, storeFails: bool)
      returns (r: Result<Transaction>, published: seq<Notice>)
      requires Valid()
      modifies this`balances, metrics`processingTimes, metrics`recorded,
               metrics`successCount, metrics`failureCount
      ensures Valid()
      ensures metrics.recorded == old(metrics.recorded) + [duration]
      ensures r.Ok? ==> metrics.successCount == old(metrics.successCount) + 1 &&
                        metrics.failureCount == old(metrics.failureCount)
      ensures r.Err? ==> metrics.failureCount == old(metrics.failureCount) + 1 &&
                         metrics.successCount == old(metrics.successCount)
      ensures var outcome := Process(old(balances), req, id, createFails, storeFails);
              r == outcome.result && published == outcome.published &&
              balances == outcome.balances
    {
      r, published := Execute(req, id, createFails, storeFails);
      if r.Ok? {
        metrics.RecordSuccess();
      } else {
        metrics.RecordFailure();
      }
      metrics.RecordProcessingTime(duration);
    }

    /** The body of `ProcessTransaction` without its bookkeeping. */
    method Execute(req: TransactionRequest, id: Uuid, createFails: bool, storeFails: bool)
      returns (r: Result<Transaction>, published: seq<Notice>)
      modifies this`balances
      ensures var outcome := Process(old(balances), req, id, createFails, storeFails);
              r == outcome.result && published == outcome.published &&
              balances == outcome.balances
    {
      published := [];
      var fault := ValidateTransactionRequest(req);
      if fault.Some? {
        return Err(fault.value), [];
      }
      if createFails {
        return Err(TransactionFault(ErrInvalidTransaction, "failed to create transaction")), [];
      }
      var t := Transaction(id, req.fromWallet, req.toWallet, req.amount, req.currency, Pending);
      published := [Event(TransactionCreated), StatusMessage(CreatedMessage)];
      fault := ProcessAtomic(t, storeFails);
      if fault.Some? {
        published := published + [Event(TransactionFailed)];
        r := Err(fault.value);
      } else {
        published := published + [Event(TransactionCompleted), StatusMessage(CompletedMessage)];
        r := Ok(t.(status := Completed));
      }
    }

    /** `GetServiceMetrics`. */
    method GetServiceMetrics() returns (copy: TransactionMetrics)
      ensures fresh(copy) && copy != metrics
      ensures copy.processingTimes == metrics.processingTimes
      ensures copy.successCount == metrics.successCount
      ensures copy.failureCount == metrics.failureCount
    {
      copy := metrics.Snapshot();
    }
  }

  // ---------------------------------------------------------------------------------------
  // Listing limits

  /** `GetTransactionsByWallet`: a limit outside 1..100 becomes 50, a negative offset 0. */
  function WalletPageBounds(limit: int, offset: int): (r: (int, int))
    ensures 1 <= r.0 <= 100 && r.1 >= 0
    ensures 1 <= limit <= 100 ==> r.0 == limit
    ensures (limit < 1 || limit > 100) ==> r.0 == 50
    ensures offset >= 0 ==> r.1 == offset
    ensures offset < 0 ==> r.1 == 0
  {
    (if limit <= 0 || limit > 100 then 50 else limit, if offset < 0 then 0 else offset)
  }

  /** `GetPendingTransactions`: a limit outside 1..1000 becomes 100. */
  function PendingLimit(limit: int): (r: int)
    ensures 1 <= r <= 1000
    ensures 1 <= limit <= 1000 ==> r == limit
    ensures (limit < 1 || limit > 1000) ==> r == 100
  {
    if limit <= 0 || limit > 1000 then 100 else limit
  }
}
