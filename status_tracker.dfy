/** The real-time status tracker of the transaction service: subscribers register a filter
    and receive, in a bounded buffer, the status updates of the transactions that match it. */
module StatusTracking {
  import opened Common
  import opened Transactions

  /** Each subscriber's buffer holds at most this many undelivered updates. */
  const BufferSize := 100

  datatype StatusUpdate = StatusUpdate(
    transactionId: Uuid,
    status: TransactionStatus,
    timestamp: int,
    fraudScore: Option<real>,
    message: string)

  /** An empty list places no constraint. */
  datatype StatusFilter = StatusFilter(
    transactionIds: seq<Uuid>,
    walletIds: seq<Uuid>,
    statuses: seq<TransactionStatus>)

  /** A subscriber as the tracker sees it: its filter and the updates waiting in its buffer. */
  datatype Subscription = Subscription(filter: StatusFilter, queue: seq<StatusUpdate>)

  // ---------------------------------------------------------------------------------------
  // Filtering

  /** Whether `t` passes `f`: each non-empty list must mention the transaction (its id, one
      of its two wallets, its status). */
  predicate Matches(t: Transaction, f: StatusFilter) {
    (|f.transactionIds| == 0 || t.id in f.transactionIds) &&
    (|f.walletIds| == 0 || t.fromWallet in f.walletIds || t.toWallet in f.walletIds) &&
    (|f.statuses| == 0 || t.status in f.statuses)
  }

  const Unfiltered := StatusFilter([], [], [])

  /** A subscriber without criteria sees every transaction. */
  lemma UnfilteredMatchesAll(t: Transaction)
    ensures Matches(t, Unfiltered)
  {
  }

  /** Subscribing to one transaction id sees exactly that transaction's updates; subscribing
      to one wallet sees exactly the transactions it sends or receives. */
  lemma SingleCriterion(t: Transaction, id: Uuid, wallet: Uuid)
    ensures Matches(t, StatusFilter([id], [], [])) <==> t.id == id
    ensures Matches(t, StatusFilter([], [wallet], [])) <==>
              t.fromWallet == wallet || t.toWallet == wallet
  {
  }

  /** The criteria are independent: passing the filter is passing each of its lists alone. */
  lemma FilterIsConjunction(t: Transaction, f: StatusFilter)
    ensures Matches(t, f) <==>
              Matches(t, StatusFilter(f.transactionIds, [], [])) &&
              Matches(t, StatusFilter([], f.walletIds, [])) &&
              Matches(t, StatusFilter([], [], f.statuses))
  {
  }

  /** Adding ids to a non-empty id list only widens what the filter lets through. */
  lemma WiderListMatchesMore(t: Transaction, f: StatusFilter, moreIds: seq<Uuid>)
    requires |f.transactionIds| > 0 && Matches(t, f)
    ensures Matches(t, f.(transactionIds := f.transactionIds + moreIds))
  {
  }

  /** `matchesFilter`: the three found-flag scans, each skipped for an empty list. */
  method MatchesFilter(t: Transaction, f: StatusFilter) returns (r: bool)
    ensures r == Matches(t, f)
  {
    if |f.transactionIds| > 0 {
      var found := false;
      var i := 0;
      while i < |f.transactionIds|
        invariant 0 <= i <= |f.transactionIds|
        invariant found <==> t.id in f.transactionIds[..i]
      {
        if f.transactionIds[i] == t.id {
          found := true;
          break;
        }
        i := i + 1;
      }
      assert f.transactionIds[..|f.transactionIds|] == f.transactionIds;
      if !found {
        return false;
      }
    }
    if |f.walletIds| > 0 {
      var found := false;
      var i := 0;
      while i < |f.walletIds|
        invariant 0 <= i <= |f.walletIds|
        invariant found <==> t.fromWallet in f.walletIds[..i] || t.toWallet in f.walletIds[..i]
      {
        if f.walletIds[i] == t.fromWallet || f.walletIds[i] == t.toWallet {
          found := true;
          break;
        }
        i := i + 1;
      }
      assert f.walletIds[..|f.walletIds|] == f.walletIds;
      if !found {
        return false;
      }
    }
    if |f.statuses| > 0 {
      var found := false;
      var i := 0;
      while i < |f.statuses|
        invariant 0 <= i <= |f.statuses|
        invariant found <==> t.status in f.statuses[..i]
      {
        if f.statuses[i] == t.status {
          found := true;
          break;
        }
        i := i + 1;
      }
      assert f.statuses[..|f.statuses|] == f.statuses;
      if !found {
        return false;
      }
    }
    return true;
  }

  // ---------------------------------------------------------------------------------------
  // Fraud-score messages

  const HighRiskMessage := "High fraud risk detected"
  const MediumRiskMessage := "Medium fraud risk detected"
  const LowRiskMessage := "Low fraud risk"
  const ScoreUpdatedMessage := "Fraud score updated"

  /** The message of `PublishFraudScoreUpdate` for the new score. */
  function FraudScoreMessage(newScore: Option<real>): (m: string)
    ensures newScore.None? <==> m == ScoreUpdatedMessage
    ensures newScore.Some? ==> (m == HighRiskMessage <==> newScore.value > 0.7)
    ensures newScore.Some? ==>
              (m == MediumRiskMessage <==> 0.3 < newScore.value <= 0.7)
    ensures newScore.Some? ==> (m == LowRiskMessage <==> newScore.value <= 0.3)
  {
    match newScore
    case None => ScoreUpdatedMessage
    case Some(score) =>
      if score > 0.7 then HighRiskMessage
      else if score > 0.3 then MediumRiskMessage
      else LowRiskMessage
  }

  /** The band never falls as the score rises: a score reported as high stays high above it,
      and one not reported as low is not low above it. */
  lemma RiskBandsOrdered(lower: real, higher: real)
    requires lower <= higher
    ensures FraudScoreMessage(Some(lower)) == HighRiskMessage ==>
              FraudScoreMessage(Some(higher)) == HighRiskMessage
    ensures FraudScoreMessage(Some(lower)) != LowRiskMessage ==>
              FraudScoreMessage(Some(higher)) != LowRiskMessage
  {
  }

  // ---------------------------------------------------------------------------------------
  // Delivery

  /** One subscriber after `u` about `t` was offered to it: appended when the filter matches
      and the buffer has room, otherwise (no match, or a full buffer) left as it was. */
  function Deliver(s: Subscription, t: Transaction, u: StatusUpdate): Subscription {
    if Matches(t, s.filter) && |s.queue| < BufferSize then s.(queue := s.queue + [u]) else s
  }

  /** Every subscriber after one update was published. */
  function Published(subs: map<Uuid, Subscription>, t: Transaction, u: StatusUpdate)
    : map<Uuid, Subscription>
  {
    map id | id in subs :: Deliver(subs[id], t, u)
  }

  ghost predicate BuffersBounded(subs: map<Uuid, Subscription>) {
    forall id :: id in subs ==> |subs[id].queue| <= BufferSize
  }

  /** Publishing keeps the subscribers and their filters; a subscriber receives the update,
      as the newest entry, exactly when it matches and has room; nobody else's buffer moves;
      and no buffer outgrows its capacity. */
  lemma PublishedMeaning(subs: map<Uuid, Subscription>, t: Transaction, u: StatusUpdate,
                         id: Uuid)
    requires BuffersBounded(subs)
    ensures Published(subs, t, u).Keys == subs.Keys
    ensures BuffersBounded(Published(subs, t, u))
    ensures id in subs ==>
              var after := Published(subs, t, u)[id];
              after.filter == subs[id].filter &&
              (Matches(t, subs[id].filter) && |subs[id].queue| < BufferSize <==>
                 after.queue == subs[id].queue + [u]) &&
              (!Matches(t, subs[id].filter) || |subs[id].queue| == BufferSize ==>
                 after.queue == subs[id].queue)
  {
    assert Published(subs, t, u).Keys == subs.Keys;
    if id in subs {
      var after := Published(subs, t, u)[id];
      if after.queue == subs[id].queue + [u] {
        assert |after.queue| != |subs[id].queue|;
      }
    }
  }

  /** `StatusTracker`. */
  class StatusTracker {
    var subscribers: map<Uuid, Subscription>

    ghost predicate Valid()
      reads this
    {
      BuffersBounded(subscribers)
    }

    constructor()
      ensures subscribers == map[] && Valid()
    {
      subscribers := map[];
    }

    /** `Subscribe`: `id` is the freshly generated subscriber id; the new subscriber starts
        with an empty buffer. */
    method Subscribe(filter: StatusFilter, id: Uuid) returns (subscriberId: Uuid)
      requires Valid() && id !in subscribers
      modifies this`subscribers
      ensures Valid()
      ensures subscriberId == id
      ensures subscribers == old(subscribers)[id := Subscription(filter, [])]
      ensures |subscribers| == |old(subscribers)| + 1
    {
      subscribers := subscribers[id := Subscription(filter, [])];
      subscriberId := id;
    }

    /** `Unsubscribe`: removes a known subscriber; an unknown id changes nothing. */
    method Unsubscribe(subscriberId: Uuid)
      requires Valid()
      modifies this`subscribers
      ensures Valid()
      ensures subscribers == old(subscribers) - {subscriberId}
      ensures |subscribers| == if subscriberId in old(subscribers) then |old(subscribers)| - 1
                               else |old(subscribers)|
    {
      if subscriberId in subscribers {
        subscribers := subscribers - {subscriberId};
      }
    }

    /** `GetSubscriberCount`. */
    function SubscriberCount(): (n: nat)
      reads this
      ensures n == |subscribers.Keys|
    {
      |subscribers|
    }

    /** `PublishStatusUpdate`: the update carries the transaction's id, status and fraud score,
        the message, and the time of publication; it is offered to every subscriber in turn. */
    method PublishStatusUpdate(t: Transaction, fraudScore: Option<real>, message: string,
                               now: int)
      requires Valid()
      modifies this`subscribers
      ensures Valid()
      ensures subscribers ==
              Published(old(subscribers), t, StatusUpdate(t.id, t.status, now, fraudScore, message))
    {
      var update := StatusUpdate(t.id, t.status, now, fraudScore, message);
      ghost var before := subscribers;
      var result := subscribers;
      var remaining := subscribers.Keys;
      while remaining != {}
        invariant remaining <= before.Keys
        invariant result.Keys == before.Keys
        invariant forall id :: id in before ==>
                    result[id] == if id in remaining then before[id]
                                  else Deliver(before[id], t, update)
        decreases |remaining|
      {
        var id :| id in remaining;
        var subscriber := result[id];
        var matches := MatchesFilter(t, subscriber.filter);
        if matches && |subscriber.queue| < BufferSize {
          result := result[id := subscriber.(queue := subscriber.queue + [update])];
        }
        remaining := remaining - {id};
      }
      subscribers := result;
      assert subscribers == Published(before, t, update);
      forall id | id in subscribers
        ensures |subscribers[id].queue| <= BufferSize
      {
        PublishedMeaning(before, t, update, id);
      }
    }

    /** `PublishFraudScoreUpdate`: a status update whose message is the band of the new
        score (the update itself carries the transaction's own fraud score). */
    method PublishFraudScoreUpdate(t: Transaction, fraudScore: Option<real>,
                                   newScore: Option<real>, now: int)
      requires Valid()
      modifies this`subscribers
      ensures Valid()
      ensures subscribers ==
              Published(old(subscribers), t,
                        StatusUpdate(t.id, t.status, now, fraudScore, FraudScoreMessage(newScore)))
    {
      PublishStatusUpdate(t, fraudScore, FraudScoreMessage(newScore), now);
    }
  }
}
