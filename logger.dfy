/**
 * Logger: per-task-name counters, a queue of sampled task timings, and
 * the merge of one logger into another. Counters are unbounded naturals
 * and the double-precision statistics are reals.
 */
module Logging {
  import opened Base

  /** Logger.Mode. */
  datatype Mode = Detailed | Sample | Basic

  /** Logger.Task: one timed run of a task, times in nanoseconds. */
  datatype Task = Task(name: string, startTime: int, duration: int)

  /** Logger.TaskStats. */
  datatype TaskStats = TaskStats(
    executionCount: nat, retryCount: nat, waitCount: nat, totalRuntime: int,
    meanRuntime: real, sumSquaresRuntime: real)

  /** A new TaskStats(): everything zero. */
  const Zero := TaskStats(0, 0, 0, 0, 0.0, 0.0)

  /** The four integer counters of a TaskStats. */
  datatype Counts = Counts(executions: nat, retries: nat, waits: nat, runtime: int)

  function CountsOf(s: TaskStats): Counts
  {
    Counts(s.executionCount, s.retryCount, s.waitCount, s.totalRuntime)
  }

  function Plus(a: Counts, b: Counts): Counts
  {
    Counts(a.executions + b.executions, a.retries + b.retries, a.waits + b.waits, a.runtime + b.runtime)
  }

  /** TaskStats.reset: the counters become zero, the mean and the sum of squares stay. */
  function Reset(s: TaskStats): (r: TaskStats)
    ensures CountsOf(r) == CountsOf(Zero)
    ensures r.meanRuntime == s.meanRuntime && r.sumSquaresRuntime == s.sumSquaresRuntime
  {
    s.(executionCount := 0, retryCount := 0, waitCount := 0, totalRuntime := 0)
  }

  /**
   * TaskStats.merge(rhs): counts add up; the mean and the sum of squared
   * deviations are combined as for two samples of sizes a.executionCount
   * and b.executionCount.
   */
  function Merge(a: TaskStats, b: TaskStats): (r: TaskStats)
    ensures CountsOf(r) == Plus(CountsOf(a), CountsOf(b))
  {
    var na := a.executionCount;
    var nb := b.executionCount;
    var (mean, squares) :=
      if nb == 0 then (a.meanRuntime, a.sumSquaresRuntime)
      else if na == 0 then (b.meanRuntime, b.sumSquaresRuntime)
      else
        var sigma := b.meanRuntime - a.meanRuntime;
        ((na as real * a.meanRuntime + nb as real * b.meanRuntime) / (na + nb) as real,
         a.sumSquaresRuntime + b.sumSquaresRuntime + sigma * sigma * (na * nb) as real / (na + nb) as real);
    TaskStats(na + nb, a.retryCount + b.retryCount, a.waitCount + b.waitCount,
              a.totalRuntime + b.totalRuntime, mean, squares)
  }

  /** The merged mean is the mean of both samples taken together. */
  lemma MergeWeighsMeans(a: TaskStats, b: TaskStats)
    ensures var r := Merge(a, b);
      (a.executionCount + b.executionCount) as real * r.meanRuntime
        == a.executionCount as real * a.meanRuntime + b.executionCount as real * b.meanRuntime
  {
    var na, nb := a.executionCount as real, b.executionCount as real;
    if a.executionCount != 0 && b.executionCount != 0 {
      var m := (na * a.meanRuntime + nb * b.meanRuntime) / (na + nb);
      assert Merge(a, b).meanRuntime == m;
      assert (na + nb) * m == na * a.meanRuntime + nb * b.meanRuntime;
    }
  }

  /** Merging in a TaskStats that has never run changes nothing. */
  lemma MergeZero(a: TaskStats)
    ensures Merge(a, Zero) == a
  {
  }

  /** Merging is associative on the counters. */
  lemma MergeCountsAssociate(a: TaskStats, b: TaskStats, c: TaskStats)
    ensures CountsOf(Merge(Merge(a, b), c)) == CountsOf(Merge(a, Merge(b, c)))
  {
  }

  /** The stats of `name`, or a zeroed TaskStats when there are none yet. */
  function Entry(stats: map<string, TaskStats>, name: string): TaskStats
  {
    if name in stats then stats[name] else Zero
  }

  /** The three counters taskRun, taskWaited and taskRetried increment. */
  datatype Counter = Executions | Waits | Retries

  function Bump(s: TaskStats, c: Counter): TaskStats
  {
    match c
    case Executions => s.(executionCount := s.executionCount + 1)
    case Waits => s.(waitCount := s.waitCount + 1)
    case Retries => s.(retryCount := s.retryCount + 1)
  }

  /**
   * The stats after taskRun, taskWaited or taskRetried of `name`: the
   * entry is created zeroed if missing, one counter of it goes up by one,
   * and nothing else changes.
   */
  function Count(stats: map<string, TaskStats>, name: string, c: Counter): (r: map<string, TaskStats>)
    ensures r.Keys == stats.Keys + {name}
    ensures forall k :: k in stats && k != name ==> r[k] == stats[k]
    ensures var e, n := Entry(stats, name), r[name];
      n.meanRuntime == e.meanRuntime && n.sumSquaresRuntime == e.sumSquaresRuntime &&
      n.totalRuntime == e.totalRuntime &&
      n.executionCount == e.executionCount + (if c == Executions then 1 else 0) &&
      n.waitCount == e.waitCount + (if c == Waits then 1 else 0) &&
      n.retryCount == e.retryCount + (if c == Retries then 1 else 0)
  {
    stats[name := Bump(Entry(stats, name), c)]
  }

  /**
   * The timing part of taskRun(Task) in SAMPLE mode, applied after the
   * execution count went up: the runtime is added, and the running mean
   * and sum of squares are updated one sample at a time.
   */
  function Timed(s: TaskStats, duration: int): (r: TaskStats)
    requires s.executionCount > 0
    ensures CountsOf(r) == CountsOf(s).(runtime := s.totalRuntime + duration)
  {
    var previous := s.meanRuntime;
    var mean := previous + (duration as real - previous) / s.executionCount as real;
    s.(totalRuntime := s.totalRuntime + duration,
       meanRuntime := mean,
       sumSquaresRuntime := s.sumSquaresRuntime + (duration as real - mean) * (duration as real - previous))
  }

  /** The running mean takes in the new sample: n times the new mean is (n - 1) times the old one plus it. */
  lemma TimedMean(s: TaskStats, duration: int)
    requires s.executionCount > 0
    ensures var n := s.executionCount as real;
      n * Timed(s, duration).meanRuntime == (n - 1.0) * s.meanRuntime + duration as real
  {
    var n, m := s.executionCount as real, s.meanRuntime;
    var d := duration as real;
    assert n * ((d - m) / n) == d - m;
    assert n * (m + (d - m) / n) == n * m + n * ((d - m) / n);
  }

  /** Every stats entry reset, as startLogging does. */
  function ResetAll(stats: map<string, TaskStats>): (r: map<string, TaskStats>)
    ensures r.Keys == stats.Keys
    ensures forall k :: k in r ==> CountsOf(r[k]) == CountsOf(Zero)
  {
    map k | k in stats :: Reset(stats[k])
  }

  /** The stats of `a` after merge takes in those of `b`. */
  function Combine(a: map<string, TaskStats>, b: map<string, TaskStats>): map<string, TaskStats>
  {
    map k | k in a.Keys + b.Keys ::
      if k in a && k in b then Merge(a[k], b[k]) else if k in a then a[k] else b[k]
  }

  /** After a merge every task name of either side is present and its counters are the sums of both sides'. */
  lemma CombineCounts(a: map<string, TaskStats>, b: map<string, TaskStats>, k: string)
    ensures var r := Combine(a, b);
      r.Keys == a.Keys + b.Keys &&
      (k in r ==> CountsOf(r[k]) == Plus(CountsOf(Entry(a, k)), CountsOf(Entry(b, k))))
  {
  }

  /** Merging a logger with no stats leaves the stats as they were. */
  lemma CombineEmpty(a: map<string, TaskStats>)
    ensures Combine(a, map[]) == a
  {
    assert Combine(a, map[]).Keys == a.Keys;
  }

  /** Java's (int) cast of a long: the low 32 bits, read as two's complement. */
  function Int32(v: int): (r: int)
    ensures -0x8000_0000 <= r < 0x8000_0000
    ensures (r - v) % 0x1_0000_0000 == 0
  {
    (v + 0x8000_0000) % 0x1_0000_0000 - 0x8000_0000
  }

  /** Task.compareTo as written: the difference of the start times, cast to int. */
  function CompareAsWritten(a: Task, b: Task): int
  {
    Int32(a.startTime - b.startTime)
  }

  /** Two tasks started 2^31 ns (about 2.1 s) apart compare the wrong way round. */
  lemma CompareAsWrittenMisorders()
    ensures var early, late := Task("Update", 0, 1), Task("Update", 0x8000_0000, 1);
      early.startTime < late.startTime && CompareAsWritten(late, early) < 0
  {
    assert Int32(0x8000_0000) == -0x8000_0000;
  }

  /** Task.compareTo as intended: the sign of the difference of the start times. */
  function Compare(a: Task, b: Task): (r: int)
    ensures r < 0 <==> a.startTime < b.startTime
    ensures r == 0 <==> a.startTime == b.startTime
  {
    if a.startTime < b.startTime then -1 else if a.startTime == b.startTime then 0 else 1
  }

  /** The intended comparison is antisymmetric, as Comparable demands. */
  lemma CompareAntisymmetric(a: Task, b: Task)
    ensures Compare(a, b) == -Compare(b, a)
  {
  }

  predicate SortedByStart(ts: seq<Task>)
  {
    forall i, j :: 0 <= i < j < |ts| ==> ts[i].startTime <= ts[j].startTime
  }

  /** `t` placed before the first task that starts no earlier. */
  function Insert(t: Task, ts: seq<Task>): (r: seq<Task>)
    decreases |ts|
  {
    if ts == [] || Compare(t, ts[0]) <= 0 then [t] + ts else [ts[0]] + Insert(t, ts[1..])
  }

  /** Collections.sort by the intended Task.compareTo, which keeps equal tasks in order. */
  function SortByStart(ts: seq<Task>): seq<Task>
    decreases |ts|
  {
    if ts == [] then [] else Insert(ts[0], SortByStart(ts[1..]))
  }

  /** A task no later than every task of a sorted list may go in front of it. */
  lemma SortedCons(x: Task, ts: seq<Task>)
    requires SortedByStart(ts)
    requires forall u :: u in ts ==> x.startTime <= u.startTime
    ensures SortedByStart([x] + ts)
  {
    var r := [x] + ts;
    forall i, j | 0 <= i < j < |r|
      ensures r[i].startTime <= r[j].startTime
    {
      assert r[j] == ts[j - 1];
      if i > 0 {
        assert r[i] == ts[i - 1];
      } else {
        assert ts[j - 1] in ts;
      }
    }
  }

  /** Insert adds `t` and keeps every other task. */
  lemma {:induction false} InsertPermutes(t: Task, ts: seq<Task>)
    ensures multiset(Insert(t, ts)) == multiset([t] + ts)
    decreases |ts|
  {
    if ts != [] && Compare(t, ts[0]) > 0 {
      InsertPermutes(t, ts[1..]);
      assert Insert(t, ts) == [ts[0]] + Insert(t, ts[1..]);
      assert ts == [ts[0]] + ts[1..];
    }
  }

  /** Insert into a sorted list keeps it sorted. */
  lemma {:induction false} InsertSorted(t: Task, ts: seq<Task>)
    requires SortedByStart(ts)
    ensures SortedByStart(Insert(t, ts))
    decreases |ts|
  {
    if ts == [] || Compare(t, ts[0]) <= 0 {
      assert Insert(t, ts) == [t] + ts;
      forall u | u in ts
        ensures t.startTime <= u.startTime
      {
        var k :| 0 <= k < |ts| && ts[k] == u;
        assert ts[0].startTime <= ts[k].startTime;
      }
      SortedCons(t, ts);
    } else {
      var tail := ts[1..];
      assert SortedByStart(tail) by {
        forall i, j | 0 <= i < j < |tail|
          ensures tail[i].startTime <= tail[j].startTime
        {
          assert tail[i] == ts[i + 1] && tail[j] == ts[j + 1];
        }
      }
      InsertSorted(t, tail);
      InsertPermutes(t, tail);
      var rest := Insert(t, tail);
      assert Insert(t, ts) == [ts[0]] + rest;
      forall u | u in rest
        ensures ts[0].startTime <= u.startTime
      {
        assert u in multiset([t] + tail);
        if u != t {
          var k :| 0 <= k < |tail| && tail[k] == u;
          assert ts[k + 1] == u;
        }
      }
      SortedCons(ts[0], rest);
    }
  }

  lemma InsertKeeps(t: Task, ts: seq<Task>)
    requires SortedByStart(ts)
    ensures SortedByStart(Insert(t, ts)) && multiset(Insert(t, ts)) == multiset([t] + ts)
    ensures forall u :: u in Insert(t, ts) ==> u == t || u in ts
  {
    InsertSorted(t, ts);
    InsertPermutes(t, ts);
    forall u | u in Insert(t, ts)
      ensures u == t || u in ts
    {
      assert u in multiset([t] + ts);
    }
  }

  /** The sort orders the tasks by start time and keeps every one of them. */
  lemma {:induction false} SortByStartSorts(ts: seq<Task>)
    ensures SortedByStart(SortByStart(ts)) && multiset(SortByStart(ts)) == multiset(ts)
    decreases |ts|
  {
    if ts != [] {
      SortByStartSorts(ts[1..]);
      InsertKeeps(ts[0], SortByStart(ts[1..]));
      assert ts == [ts[0]] + ts[1..];
    }
  }

  class Logger {
    var mode: Mode
    var description: Option<string>
    var pending: seq<Task>
    var stats: map<string, TaskStats>
    var numWorkers: int
    var startTime: int

    /** Logger(): no pending messages, no stats, BASIC mode. */
    constructor ()
      ensures mode == Basic && pending == [] && stats == map[] && description == None
    {
      mode := Basic;
      description := None;
      pending := [];
      stats := map[];
      numWorkers := 0;
      startTime := 0;
    }

    /**
     * startLogging(description, workerThreads), with `now` the reading of
     * the millisecond clock: pending messages are dropped and every
     * stats entry is reset in turn.
     */
    method StartLogging(description: string, workerThreads: int, now: int)
      modifies this
      ensures pending == [] && stats == ResetAll(old(stats))
      ensures this.description == Some(description) && numWorkers == workerThreads && startTime == now
      ensures mode == old(mode)
    {
      pending := [];
      this.description := Some(description);
      numWorkers := workerThreads;
      var s0 := stats;
      var s := s0;
      var todo := s0.Keys;
      while todo != {}
        invariant todo <= s0.Keys && s.Keys == s0.Keys
        invariant forall k :: k in s0 ==> s[k] == if k in todo then s0[k] else Reset(s0[k])
        decreases todo
      {
        var k :| k in todo;
        s := s[k := Reset(s[k])];
        todo := todo - {k};
      }
      stats := s;
      startTime := now;
    }

    /** startLogging(description): no worker count, -1. */
    method StartLoggingUnsized(description: string, now: int)
      modifies this
      ensures pending == [] && stats == ResetAll(old(stats))
      ensures this.description == Some(description) && numWorkers == -1 && startTime == now
      ensures mode == old(mode)
    {
      StartLogging(description, -1, now);
    }

    method SetLogMode(level: Mode)
      modifies this
      ensures mode == level && pending == old(pending) && stats == old(stats)
    {
      mode := level;
    }

    /** taskRun(String). */
    method TaskRunNamed(name: string)
      modifies this
      ensures stats == Count(old(stats), name, Executions)
      ensures pending == old(pending) && mode == old(mode)
    {
      stats := stats[name := Bump(Entry(stats, name), Executions)];
    }

    /** taskWaited. */
    method TaskWaited(name: string)
      modifies this
      ensures stats == Count(old(stats), name, Waits)
      ensures pending == old(pending) && mode == old(mode)
    {
      stats := stats[name := Bump(Entry(stats, name), Waits)];
    }

    /** taskRetried. */
    method TaskRetried(name: string)
      modifies this
      ensures stats == Count(old(stats), name, Retries)
      ensures pending == old(pending) && mode == old(mode)
    {
      stats := stats[name := Bump(Entry(stats, name), Retries)];
    }

    /**
     * taskRun(Task), with `sampled` standing for Math.random() >= 0.99:
     * the run is counted; the task is queued in DETAILED mode, and in
     * SAMPLE mode when sampled; in SAMPLE mode its duration is folded
     * into the statistics.
     */
    method TaskRun(m: Task, sampled: bool)
      modifies this
      ensures pending == old(pending) + (if mode == Detailed || (mode == Sample && sampled) then [m] else [])
      ensures var counted := Count(old(stats), m.name, Executions);
        stats == if mode == Sample then counted[m.name := Timed(counted[m.name], m.duration)] else counted
      ensures mode == old(mode)
    {
      TaskRunNamed(m.name);
      if mode == Detailed || (mode == Sample && sampled) {
        pending := pending + [m];
      }
      if mode == Sample {
        var ms := stats[m.name];
        stats := stats[m.name := Timed(ms, m.duration)];
      }
    }

    /**
     * merge(rhs): nothing for null; otherwise both queues are drained,
     * this one's first, every stats entry of rhs is merged into or moved
     * to this logger, rhs is left with no stats, and the drained tasks
     * come back sorted by start time.
     */
    method MergeFrom(rhs: Logger?)
      requires rhs != this
      modifies this, rhs
      ensures rhs == null ==> pending == old(pending) && stats == old(stats)
      ensures rhs != null ==>
        pending == SortByStart(old(pending) + old(rhs.pending)) &&
        stats == Combine(old(stats), old(rhs.stats)) &&
        rhs.pending == [] && rhs.stats == map[]
      ensures rhs != null ==>
        SortedByStart(pending) && multiset(pending) == multiset(old(pending) + old(rhs.pending))
      ensures mode == old(mode)
    {
      if rhs == null {
        return;
      }
      var temp := [];
      while pending != []
        invariant temp + pending == old(pending)
        invariant rhs.pending == old(rhs.pending) && rhs.stats == old(rhs.stats)
        invariant stats == old(stats) && mode == old(mode)
      {
        temp := temp + [pending[0]];
        pending := pending[1..];
      }
      while rhs.pending != []
        invariant temp + rhs.pending == old(pending) + old(rhs.pending)
        invariant pending == [] && rhs.stats == old(rhs.stats)
        invariant stats == old(stats) && mode == old(mode)
      {
        temp := temp + [rhs.pending[0]];
        rhs.pending := rhs.pending[1..];
      }
      var a, b := stats, rhs.stats;
      var s := a;
      var todo := b.Keys;
      while todo != {}
        invariant todo <= b.Keys
        invariant s.Keys == a.Keys + (b.Keys - todo)
        invariant forall k :: k in s ==>
          s[k] == if k in b && k !in todo then (if k in a then Merge(a[k], b[k]) else b[k]) else a[k]
        decreases todo
      {
        var k :| k in todo;
        if k in s {
          s := s[k := Merge(s[k], b[k])];
        } else {
          s := s[k := b[k]];
        }
        todo := todo - {k};
      }
      assert s == Combine(a, b);
      assert temp == old(pending) + old(rhs.pending);
      stats := s;
      rhs.stats := map[];
      SortByStartSorts(temp);
      pending := SortByStart(temp);
    }
  }
}
