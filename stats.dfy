/**
 * Per-category statistics over logged time (src/stats.rs).
 *
 * Timestamps and `chrono::Duration` are integers (nanoseconds). This file
 * works on the later `TimeLog`, whose category is a `number` in 1..=8.
 */
module Stats {
  import opened Wrappers

  type Timestamp = int
  type Duration = int

  /** A logged span of time against category `number`. */
  datatype TimeLog = TimeLog(start: Timestamp, end: Option<Timestamp>, number: nat)

  /** The aggregate for one category. */
  datatype TimeStats = TimeStats(taskNumber: nat, count: nat, total: Duration, mean: Duration)

  const CATEGORIES: nat := 8

  /** `TimeStats::default()`: the "no statistics" placeholder. */
  function DefaultStats(): (r: TimeStats)
    ensures r.taskNumber == 0 && r.count == 0 && r.total == 0 && r.mean == 0
  {
    TimeStats(0, 0, 0, 0)
  }

  /** The time one log contributes: `end.unwrap_or(start) - start`, so nothing while it is open. */
  function LogDuration(log: TimeLog): (d: Duration)
    ensures log.end.None? ==> d == 0
    ensures log.end.Some? ==> log.start + d == log.end.value
  {
    log.end.UnwrapOr(log.start) - log.start
  }

  /** Division of a duration by a positive count, truncating toward zero. */
  function TruncDiv(a: int, b: nat): (q: int)
    requires b > 0
    ensures a >= 0 ==> 0 <= q * b <= a < q * b + b
    ensures a < 0 ==> q * b - b < a <= q * b <= 0
  {
    if a >= 0 then
      NatQuotient(a, b);
      a / b
    else
      NatQuotient(-a, b);
      -((-a) / b)
  }

  lemma NatQuotient(a: nat, b: nat)
    requires b > 0
    ensures 0 <= (a / b) * b <= a < (a / b) * b + b
  {
    var q, m := a / b, a % b;
    assert a == q * b + m && 0 <= m < b;
    assert 0 <= q;
  }

  /** How many logs are in category `n`. */
  function Count(logs: seq<TimeLog>, n: nat): nat
  {
    if logs == [] then 0
    else Count(logs[..|logs| - 1], n) + (if logs[|logs| - 1].number == n then 1 else 0)
  }

  /** The summed durations of the logs in category `n`. */
  function Total(logs: seq<TimeLog>, n: nat): Duration
  {
    if logs == [] then 0
    else Total(logs[..|logs| - 1], n) + (if logs[|logs| - 1].number == n then LogDuration(logs[|logs| - 1]) else 0)
  }

  /** Every log names one of the eight categories. */
  predicate NumbersInRange(logs: seq<TimeLog>)
  {
    forall i :: 0 <= i < |logs| ==> 1 <= logs[i].number <= CATEGORIES
  }

  /** The category numbers that occur in `logs`. */
  function Numbers(logs: seq<TimeLog>): set<nat>
  {
    set i | 0 <= i < |logs| :: logs[i].number
  }

  /** Each of the eight categories has at least one log. */
  predicate EveryCategoryLogged(logs: seq<TimeLog>)
  {
    forall n :: 1 <= n <= CATEGORIES ==> n in Numbers(logs)
  }

  /** A category that occurs in the logs has a positive count, so its mean is defined. */
  lemma {:induction false} LoggedCategoryIsCounted(logs: seq<TimeLog>, n: nat)
    requires n in Numbers(logs)
    ensures Count(logs, n) > 0
  {
    var i :| 0 <= i < |logs| && logs[i].number == n;
    if i < |logs| - 1 {
      var init := logs[..|logs| - 1];
      assert init[i] == logs[i];
      assert n in Numbers(init);
      LoggedCategoryIsCounted(init, n);
    }
  }

  function CountsOfAll(logs: seq<TimeLog>): nat
  {
    Count(logs, 1) + Count(logs, 2) + Count(logs, 3) + Count(logs, 4)
    + Count(logs, 5) + Count(logs, 6) + Count(logs, 7) + Count(logs, 8)
  }

  /** When every number is in range, the eight buckets together hold every log exactly once. */
  lemma {:induction false} CountsCoverAllLogs(logs: seq<TimeLog>)
    requires NumbersInRange(logs)
    ensures CountsOfAll(logs) == |logs|
  {
    if logs != [] {
      CountsCoverAllLogs(logs[..|logs| - 1]);
    }
  }

  /** A log outside 1..=8 is in no bucket: Rust would underflow or index out of bounds on it. */
  lemma {:induction false} OutOfRangeLogIsUncounted(logs: seq<TimeLog>, i: nat)
    requires i < |logs| && !(1 <= logs[i].number <= CATEGORIES)
    ensures CountsOfAll(logs) < |logs|
  {
    var init := logs[..|logs| - 1];
    if i == |logs| - 1 {
      CountsAtMostLength(init);
    } else {
      assert init[i] == logs[i];
      OutOfRangeLogIsUncounted(init, i);
    }
  }

  lemma {:induction false} CountsAtMostLength(logs: seq<TimeLog>)
    ensures CountsOfAll(logs) <= |logs|
  {
    if logs != [] {
      CountsAtMostLength(logs[..|logs| - 1]);
    }
  }

  /** `TimeStatsBuilder`: the running count and total of one category. */
  class TimeStatsBuilder {
    var number: nat
    var count: nat
    var total: Duration

    /** `TimeStatsBuilder::new`. */
    constructor (number: nat)
      ensures this.number == number && count == 0 && total == 0
    {
      this.number := number;
      count := 0;
      total := 0;
    }

    /** `add`: one more log, its duration added to the total. */
    method Add(entry: TimeLog)
      modifies this
      ensures count == old(count) + 1
      ensures total == old(total) + LogDuration(entry)
      ensures number == old(number)
    {
      count := count + 1;
      total := total + (entry.end.UnwrapOr(entry.start) - entry.start);
    }

    /** `build`: the statistics so far; the mean divides by the count, which must not be zero. */
    function Build(): (r: TimeStats)
      reads this
      requires count > 0
      ensures r.taskNumber == number && r.count == count && r.total == total
      ensures r.mean == TruncDiv(total, count)
    {
      TimeStats(number, count, total, TruncDiv(total, count))
    }
  }

  /** Builder `k` holds the count and total of category `k + 1` over `logs`. */
  predicate Tallied(builders: seq<TimeStatsBuilder>, logs: seq<TimeLog>)
    reads set k | 0 <= k < |builders| :: builders[k]
  {
    && |builders| == CATEGORIES
    && forall k :: 0 <= k < CATEGORIES ==>
         builders[k].number == k + 1 && builders[k].count == Count(logs, k + 1) && builders[k].total == Total(logs, k + 1)
  }

  /** `result.map(|tsb| tsb.build())` over the eight builders. */
  function BuildAll(builders: seq<TimeStatsBuilder>): (r: seq<TimeStats>)
    reads set k | 0 <= k < |builders| :: builders[k]
    requires |builders| == CATEGORIES
    requires forall k :: 0 <= k < CATEGORIES ==> builders[k].count > 0
    ensures |r| == CATEGORIES
    ensures forall k :: 0 <= k < CATEGORIES ==> r[k] == builders[k].Build()
  {
    [builders[0].Build(), builders[1].Build(), builders[2].Build(), builders[3].Build(),
     builders[4].Build(), builders[5].Build(), builders[6].Build(), builders[7].Build()]
  }

  /** The `for log in logs` loop of `compute_stats`: each log is added to the builder of its number. */
  method Tally(result: seq<TimeStatsBuilder>, logs: seq<TimeLog>)
    requires NumbersInRange(logs)
    requires Tallied(result, [])
    requires forall j, k :: 0 <= j < k < |result| ==> result[j] != result[k]
    modifies set k | 0 <= k < |result| :: result[k]
    ensures Tallied(result, logs)
  {
    var i := 0;
    while i < |logs|
      invariant i <= |logs|
      invariant Tallied(result, logs[..i])
    {
      var log := logs[i];
      assert logs[..i + 1][..i] == logs[..i];
      result[log.number - 1].Add(log);
      i := i + 1;
    }
    assert logs[..i] == logs;
  }

  /** The statistics `compute_stats` promises for category `k + 1`. */
  predicate StatsFor(s: TimeStats, logs: seq<TimeLog>, k: nat)
  {
    && s.taskNumber == k + 1
    && s.count == Count(logs, k + 1)
    && s.total == Total(logs, k + 1)
    && s.count > 0
    && s.mean == TruncDiv(s.total, s.count)
  }

  /**
   * `compute_stats`: bucket the logs into eight builders by number and build
   * each. Every number must lie in 1..=8, and every category must have at
   * least one log, or `build` divides by zero.
   */
  method ComputeStats(logs: seq<TimeLog>) returns (r: seq<TimeStats>)
    requires NumbersInRange(logs)
    requires EveryCategoryLogged(logs)
    ensures |r| == CATEGORIES
    ensures forall k :: 0 <= k < CATEGORIES ==> StatsFor(r[k], logs, k)
    ensures forall k :: 0 <= k < CATEGORIES ==> r[k] != DefaultStats()
    ensures r[0].count + r[1].count + r[2].count + r[3].count
          + r[4].count + r[5].count + r[6].count + r[7].count == |logs|
  {
    var b1 := new TimeStatsBuilder(1);
    var b2 := new TimeStatsBuilder(2);
    var b3 := new TimeStatsBuilder(3);
    var b4 := new TimeStatsBuilder(4);
    var b5 := new TimeStatsBuilder(5);
    var b6 := new TimeStatsBuilder(6);
    var b7 := new TimeStatsBuilder(7);
    var b8 := new TimeStatsBuilder(8);
    var result := [b1, b2, b3, b4, b5, b6, b7, b8];
    Tally(result, logs);
    forall k | 0 <= k < CATEGORIES
      ensures result[k].count > 0
    {
      LoggedCategoryIsCounted(logs, k + 1);
    }
    r := BuildAll(result);
    CountsCoverAllLogs(logs);
  }
}
