/** In-memory timing of reversals against the one-hour target: records move from the
    active map to the completed map when a reversal completes or fails. */
module ReversalTracking {
  import opened Common
  import opened FraudCases

  datatype ReversalStatus = InProgress | Completed | Failed

  /** `ReversalTrackingRecord`; a duration is in seconds. */
  datatype Record = Record(
    caseId: Uuid,
    startTime: Time,
    endTime: Option<Time>,
    duration: Option<int>,
    status: ReversalStatus,
    failureReason: Option<string>)

  /** `Duration.toMinutes`: whole minutes, truncated toward zero. */
  function ToMinutes(seconds: int): int {
    JavaDiv(seconds, 60)
  }

  /** A finished record that counts towards the average: its duration in whole minutes. */
  function CompletedMinutes(r: Record): int {
    if r.status == Completed && r.duration.Some? then ToMinutes(r.duration.value) else 0
  }

  function IsCompleted(r: Record): int {
    if r.status == Completed then 1 else 0
  }

  function IsCompletedWithinHour(r: Record): int {
    if r.status == Completed && r.duration.Some? && ToMinutes(r.duration.value) <= 60 then 1 else 0
  }

  // ---------------------------------------------------------------------------------------
  // A fold over the records of a map, the meaning of the stream reductions

  /** The sum of `f` over the records stored under `keys`. */
  ghost function Total(m: map<Uuid, Record>, keys: set<Uuid>, f: Record -> int): int
    requires keys <= m.Keys
    decreases keys
  {
    if keys == {} then 0
    else
      var k :| k in keys;
      f(m[k]) + Total(m, keys - {k}, f)
  }

  /** Any key can be taken out first, whichever one the definition happens to pick. */
  lemma {:induction false} TotalRemove(m: map<Uuid, Record>, keys: set<Uuid>, f: Record -> int,
                                       k: Uuid)
    requires keys <= m.Keys && k in keys
    ensures Total(m, keys, f) == f(m[k]) + Total(m, keys - {k}, f)
    decreases keys
  {
    var j :| j in keys && Total(m, keys, f) == f(m[j]) + Total(m, keys - {j}, f);
    if j != k {
      TotalRemove(m, keys - {j}, f, k);
      TotalRemove(m, keys - {k}, f, j);
      assert keys - {j} - {k} == keys - {k} - {j};
    }
  }

  /** A sum of 0/1 indicators lies between 0 and the number of keys. */
  lemma {:induction false} TotalOfIndicator(m: map<Uuid, Record>, keys: set<Uuid>,
                                            f: Record -> int)
    requires keys <= m.Keys
    requires forall r :: 0 <= f(r) <= 1
    ensures 0 <= Total(m, keys, f) <= |keys|
    decreases keys
  {
    if keys != {} {
      var k :| k in keys && Total(m, keys, f) == f(m[k]) + Total(m, keys - {k}, f);
      TotalOfIndicator(m, keys - {k}, f);
    }
  }

  /** The sum is monotone in the summand. */
  lemma {:induction false} TotalMonotone(m: map<Uuid, Record>, keys: set<Uuid>,
                                         f: Record -> int, g: Record -> int)
    requires keys <= m.Keys
    requires forall r :: f(r) <= g(r)
    ensures Total(m, keys, f) <= Total(m, keys, g)
    decreases keys
  {
    if keys != {} {
      var k :| k in keys && Total(m, keys, f) == f(m[k]) + Total(m, keys - {k}, f);
      TotalRemove(m, keys, g, k);
      TotalMonotone(m, keys - {k}, f, g);
    }
  }

  /** `ReversalStatistics`. */
  datatype Statistics = Statistics(
    totalReversals: nat,
    successfulReversals: nat,
    reversalsWithinOneHour: nat,
    averageTimeMinutes: real,
    successRate: real,
    oneHourComplianceRate: real)

  class ReversalTimeTracker {
    var active: map<Uuid, Record>
    var completed: map<Uuid, Record>

    /** Every record is filed under its own case; active records are in progress and have no
        end yet; finished records are completed or failed and carry their end and a duration
        that is the time between start and end. */
    ghost predicate Valid()
      reads this
    {
      && (forall id :: id in active ==>
            active[id].caseId == id && active[id].status == InProgress &&
            active[id].endTime.None? && active[id].duration.None? &&
            active[id].failureReason.None?)
      && (forall id :: id in completed ==>
            completed[id].caseId == id && completed[id].status != InProgress &&
            completed[id].endTime.Some? &&
            completed[id].duration == Some(completed[id].endTime.value - completed[id].startTime))
    }

    constructor ()
      ensures Valid()
      ensures active == map[] && completed == map[]
    {
      active := map[];
      completed := map[];
    }

    /** `startReversal`: an in-progress record for the case, replacing any earlier one. */
    method StartReversal(caseId: Uuid, now: Time)
      requires Valid()
      modifies this`active
      ensures Valid()
      ensures active == old(active)[caseId := Record(caseId, now, None, None, InProgress, None)]
    {
      active := active[caseId := Record(caseId, now, None, None, InProgress, None)];
    }

    /** `completeReversal`: moves the case's active record to the completed map as COMPLETED,
        with the elapsed time as its duration; a case that is not active is ignored. */
    method CompleteReversal(caseId: Uuid, now: Time)
      requires Valid()
      modifies this
      ensures Valid()
      ensures caseId in old(active) ==>
                active == old(active) - {caseId} &&
                completed == old(completed)[caseId := Record(caseId, old(active)[caseId].startTime,
                  Some(now), Some(now - old(active)[caseId].startTime), Completed, None)]
      ensures caseId !in old(active) ==> active == old(active) && completed == old(completed)
    {
      if caseId in active {
        var r := active[caseId];
        active := active - {caseId};
        completed := completed[caseId := Record(caseId, r.startTime, Some(now),
                                               Some(now - r.startTime), Completed, None)];
      }
    }

    /** `failReversal`: the same move, as FAILED, keeping the reason. */
    method FailReversal(caseId: Uuid, reason: Option<string>, now: Time)
      requires Valid()
      modifies this
      ensures Valid()
      ensures caseId in old(active) ==>
                active == old(active) - {caseId} &&
                completed == old(completed)[caseId := Record(caseId, old(active)[caseId].startTime,
                  Some(now), Some(now - old(active)[caseId].startTime), Failed, reason)]
      ensures caseId !in old(active) ==> active == old(active) && completed == old(completed)
    {
      if caseId in active {
        var r := active[caseId];
        active := active - {caseId};
        completed := completed[caseId := Record(caseId, r.startTime, Some(now),
                                               Some(now - r.startTime), Failed, reason)];
      }
    }

    /** `getReversalTime`: the duration of the case's finished record, completed or failed. */
    function GetReversalTime(caseId: Uuid): (d: Option<int>)
      reads this
      ensures caseId !in completed ==> d.None?
      ensures caseId in completed ==> d == completed[caseId].duration
    {
      if caseId in completed then completed[caseId].duration else None
    }

    /** `wasReversalWithinOneHour`: a finished record, completed or failed, whose end came
        at most 60 whole minutes after its start. A case with no finished record, or whose
        reversal is still in progress, never qualifies. */
    predicate WasReversalWithinOneHour(caseId: Uuid): (b: bool)
      reads this
      ensures caseId !in completed ==> !b
      ensures Valid() ==>
                (b <==> caseId in completed &&
                        ToMinutes(completed[caseId].endTime.value - completed[caseId].startTime)
                          <= 60)
    {
      GetReversalTime(caseId).Some? && ToMinutes(GetReversalTime(caseId).value) <= 60
    }

    /** `getTotalReversals`: every finished record, failures included. */
    function GetTotalReversals(): (n: nat)
      reads this
      ensures n == |completed.Keys|
    {
      |completed|
    }

    ghost function CompletedCount(): int
      reads this
    {
      Total(completed, completed.Keys, IsCompleted)
    }

    ghost function CompletedMinutesTotal(): int
      reads this
    {
      Total(completed, completed.Keys, CompletedMinutes)
    }

    ghost function WithinHourCount(): int
      reads this
    {
      Total(completed, completed.Keys, IsCompletedWithinHour)
    }

    /** The counts the statistics report are ordered: within the hour, then completed, then
        every finished record. */
    lemma CountsOrdered()
      ensures 0 <= WithinHourCount() <= CompletedCount() <= GetTotalReversals()
    {
      TotalOfIndicator(completed, completed.Keys, IsCompleted);
      TotalOfIndicator(completed, completed.Keys, IsCompletedWithinHour);
      TotalMonotone(completed, completed.Keys, IsCompletedWithinHour, IsCompleted);
    }

    /** Sums `f` over the finished records, one key at a time. */
    method SumCompleted(f: Record -> int) returns (sum: int)
      ensures sum == Total(completed, completed.Keys, f)
    {
      var keys := completed.Keys;
      sum := 0;
      while keys != {}
        invariant keys <= completed.Keys
        invariant sum + Total(completed, keys, f) == Total(completed, completed.Keys, f)
        decreases keys
      {
        var k :| k in keys;
        TotalRemove(completed, keys, f, k);
        sum := sum + f(completed[k]);
        keys := keys - {k};
      }
    }

    /** `getReversalsWithinOneHour`: COMPLETED records of at most 60 whole minutes. */
    method GetReversalsWithinOneHour() returns (n: nat)
      ensures n == WithinHourCount()
      ensures n <= CompletedCount() <= GetTotalReversals()
    {
      CountsOrdered();
      var sum := SumCompleted(IsCompletedWithinHour);
      n := sum;
    }

    /** `getAverageReversalTime`: the mean whole-minute duration of COMPLETED records, and
        0.0 when there are none (failed records are counted by neither sum). */
    method GetAverageReversalTime() returns (avg: real)
      ensures CompletedCount() == 0 ==> avg == 0.0
      ensures CompletedCount() > 0 ==>
                avg == CompletedMinutesTotal() as real / CompletedCount() as real
    {
      if |completed| == 0 {
        return 0.0;
      }
      var minutes := SumCompleted(CompletedMinutes);
      var count := SumCompleted(IsCompleted);
      avg := if count > 0 then minutes as real / count as real else 0.0;
    }

    /** `getStatistics`: the counts, the average, and two percentages that are 0 when their
        denominator is 0 and otherwise lie in [0, 100]. */
    method GetStatistics() returns (s: Statistics)
      ensures s.totalReversals == GetTotalReversals()
      ensures s.successfulReversals == CompletedCount()
      ensures s.reversalsWithinOneHour == WithinHourCount()
      ensures s.reversalsWithinOneHour <= s.successfulReversals <= s.totalReversals
      ensures CompletedCount() == 0 ==> s.averageTimeMinutes == 0.0
      ensures CompletedCount() > 0 ==>
                s.averageTimeMinutes == CompletedMinutesTotal() as real / CompletedCount() as real
      ensures s.totalReversals == 0 ==> s.successRate == 0.0
      ensures s.totalReversals > 0 ==>
                s.successRate == s.successfulReversals as real / s.totalReversals as real * 100.0
      ensures s.successfulReversals == 0 ==> s.oneHourComplianceRate == 0.0
      ensures s.successfulReversals > 0 ==>
                s.oneHourComplianceRate ==
                  s.reversalsWithinOneHour as real / s.successfulReversals as real * 100.0
      ensures 0.0 <= s.successRate <= 100.0
      ensures 0.0 <= s.oneHourComplianceRate <= 100.0
    {
      CountsOrdered();
      var total := |completed|;
      var successful := SumCompleted(IsCompleted);
      var within := GetReversalsWithinOneHour();
      var average := GetAverageReversalTime();
      var successRate := if total > 0 then successful as real / total as real * 100.0 else 0.0;
      var compliance :=
        if successful > 0 then within as real / successful as real * 100.0 else 0.0;
      RatioAtMostHundred(successful, total);
      RatioAtMostHundred(within, successful);
      s := Statistics(total, successful, within, average, successRate, compliance);
    }
  }

  /** A part over its whole, as a percentage. */
  lemma RatioAtMostHundred(part: int, whole: int)
    requires 0 <= part <= whole
    ensures whole > 0 ==> 0.0 <= part as real / whole as real * 100.0 <= 100.0
  {
    if whole > 0 {
      assert part as real / whole as real <= 1.0;
    }
  }
}
