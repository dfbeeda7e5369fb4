/**
 * The scheduler's bookkeeping as values: what one poll for the next task,
 * one submission and one slice do to the queues and the counters, in each
 * of the three scheduling modes. The Scheduler and WorkerThread classes are
 * proved to follow these functions; the lemmas state what they guarantee.
 */
module SchedulingSpec {
  import opened Base

  datatype State = Running | Stopped

  datatype Mode = Unordered | OrderedRetry | OrderedPrecompute

  /**
   * What the scheduler can observe of a task at the moment it looks: whether
   * it is a Behaviour at all, whether isReady() holds, the name of its class
   * (the key of the per-class counters) and its last run time.
   */
  datatype TaskView = TaskView(isBehaviour: object -> bool, ready: object -> bool,
                               kind: object -> string, runTime: object -> int)

  /** What a worker sees of one run of a task: the flag call() returned, or an exception. */
  datatype Outcome = Returned(resubmit: bool) | Threw | Interrupted

  /** The result of getNextTask: a task, null, or no return at all (the retry loop never ends). */
  datatype Polled = Got(task: object) | NoTask | Spins

  /** The fields getNextTask works on: the three task queues and the counters it bumps. */
  datatype Queues = Queues(tasks: seq<object>, waiting: seq<object>, unsorted: seq<object>,
                           numRetries: int, unreadyCount: map<string, int>)

  /** The scheduler's fields, with the worker type left open. */
  datatype Snapshot<W> = Snapshot(
    state: State, mode: Mode, queues: Queues,
    numTasks: int, taskCount: map<string, int>, waitingCount: int, totalRunTime: int,
    numWorkers: int, threads: seq<W>, idle: seq<W>)

  /** Every task the scheduler holds, in any of its three queues. */
  function Held(q: Queues): multiset<object>
  {
    multiset(q.tasks) + multiset(q.waiting) + multiset(q.unsorted)
  }

  function PolledTask(p: Polled): multiset<object>
  {
    if p.Got? then multiset{p.task} else multiset{}
  }

  /** Incrementing a per-class counter, creating it at 1 when it is absent. */
  function Bump(m: map<string, int>, k: string): (r: map<string, int>)
    ensures r.Keys == m.Keys + {k}
    ensures r[k] == (if k in m then m[k] else 0) + 1
    ensures forall j :: j in m && j != k ==> r[j] == m[j]
  {
    m[k := (if k in m then m[k] else 0) + 1]
  }

  /** One Bump per key of `ks`, in order. */
  function BumpAll(m: map<string, int>, ks: seq<string>): map<string, int>
  {
    if ks == [] then m else Bump(BumpAll(m, ks[..|ks| - 1]), ks[|ks| - 1])
  }

  function Kinds(q: seq<object>, kind: object -> string): (r: seq<string>)
    ensures |r| == |q| && forall i :: 0 <= i < |q| ==> r[i] == kind(q[i])
  {
    seq(|q|, i requires 0 <= i < |q| => kind(q[i]))
  }

  /** BumpAll counts, for every key, how often it occurs. */
  lemma {:induction false} BumpAllCounts(m: map<string, int>, ks: seq<string>, k: string)
    ensures k in BumpAll(m, ks) <==> k in m || k in ks
    ensures k in BumpAll(m, ks) ==> BumpAll(m, ks)[k] == (if k in m then m[k] else 0) + multiset(ks)[k]
  {
    if ks != [] {
      var init := ks[..|ks| - 1];
      BumpAllCounts(m, init, k);
      assert ks == init + [ks[|ks| - 1]];
      assert multiset(ks) == multiset(init) + multiset{ks[|ks| - 1]};
    }
  }

  /** The index of the first ready task of `q`, or |q| when none is. */
  function FirstReady(q: seq<object>, ready: object -> bool): (k: nat)
    ensures k <= |q|
    ensures k < |q| ==> ready(q[k])
    ensures forall j :: 0 <= j < k ==> !ready(q[j])
  {
    if q == [] then 0 else if ready(q[0]) then 0 else 1 + FirstReady(q[1..], ready)
  }

  /** The waiting tasks that stay: the unready ones, in their order. */
  function Staying(s: seq<object>, ready: object -> bool): seq<object>
  {
    if s == [] then [] else (if ready(s[0]) then [] else [s[0]]) + Staying(s[1..], ready)
  }

  /** The waiting tasks promoted to the run queue: the ready ones, in the order of a scan from the back. */
  function Promoted(s: seq<object>, ready: object -> bool): seq<object>
  {
    if s == [] then [] else Promoted(s[1..], ready) + (if ready(s[0]) then [s[0]] else [])
  }

  /** The ready tasks of `s` in their own order: the reference the promotion order is compared with. */
  function ReadyInOrder(s: seq<object>, ready: object -> bool): seq<object>
  {
    if s == [] then [] else (if ready(s[0]) then [s[0]] else []) + ReadyInOrder(s[1..], ready)
  }

  function Reverse<T>(s: seq<T>): (r: seq<T>)
    ensures |r| == |s|
  {
    if s == [] then [] else Reverse(s[1..]) + [s[0]]
  }

  lemma {:induction false} ReverseAppend<T>(a: seq<T>, b: seq<T>)
    ensures Reverse(a + b) == Reverse(b) + Reverse(a)
  {
    if a == [] {
      assert a + b == b;
    } else {
      ReverseAppend(a[1..], b);
      assert (a + b)[1..] == a[1..] + b;
    }
  }

  /** Only ready tasks are promoted, and only unready ones stay. */
  lemma {:induction false} PartitionSides(s: seq<object>, ready: object -> bool)
    ensures forall x :: x in Promoted(s, ready) ==> ready(x)
    ensures forall x :: x in Staying(s, ready) ==> !ready(x)
  {
    if s != [] {
      PartitionSides(s[1..], ready);
    }
  }

  /** The precompute scan neither loses nor duplicates a waiting task. */
  lemma {:induction false} PartitionExact(s: seq<object>, ready: object -> bool)
    ensures multiset(Promoted(s, ready)) + multiset(Staying(s, ready)) == multiset(s)
  {
    if s != [] {
      PartitionExact(s[1..], ready);
      assert s == [s[0]] + s[1..];
    }
  }

  /** The promoted tasks are the ready ones in reverse order. */
  lemma {:induction false} PromotedReversed(s: seq<object>, ready: object -> bool)
    ensures Promoted(s, ready) == Reverse(ReadyInOrder(s, ready))
  {
    if s != [] {
      PromotedReversed(s[1..], ready);
      ReverseAppend(if ready(s[0]) then [s[0]] else [], ReadyInOrder(s[1..], ready));
      assert Reverse(if ready(s[0]) then [s[0]] else []) == (if ready(s[0]) then [s[0]] else []);
    }
  }

  /**
   * The precompute scan splits the waiting list exactly: ready tasks are
   * promoted (in reverse order), unready ones stay (in order), none is lost
   * or duplicated.
   */
  lemma PartitionWaiting(s: seq<object>, ready: object -> bool)
    ensures forall x :: x in Promoted(s, ready) ==> ready(x)
    ensures forall x :: x in Staying(s, ready) ==> !ready(x)
    ensures multiset(Promoted(s, ready)) + multiset(Staying(s, ready)) == multiset(s)
    ensures Promoted(s, ready) == Reverse(ReadyInOrder(s, ready))
  {
    PartitionSides(s, ready);
    PartitionExact(s, ready);
    PromotedReversed(s, ready);
  }

  /** UNORDERED: the head of the run queue, whatever its readiness. */
  function PollUnordered(q: Queues): (Queues, Polled)
  {
    if q.tasks == [] then (q, NoTask) else (q.(tasks := q.tasks[1..]), Got(q.tasks[0]))
  }

  /**
   * ORDERED_RETRY: unready tasks are taken from the head and put back at the
   * tail, each counted as a retry, until a ready one comes up. When none is
   * ready the loop never ends.
   */
  function PollRetry(q: Queues, view: TaskView): (Queues, Polled)
  {
    if q.tasks == [] then (q, NoTask)
    else
      var k := FirstReady(q.tasks, view.ready);
      if k == |q.tasks| then (q, Spins)
      else
        var skipped := q.tasks[..k];
        (q.(tasks := q.tasks[k + 1..] + skipped,
            numRetries := q.numRetries + k,
            unreadyCount := BumpAll(q.unreadyCount, Kinds(skipped, view.kind))),
         Got(q.tasks[k]))
  }

  /**
   * ORDERED_PRECOMPUTE: the head of the run queue is taken; if the waiting
   * lock is free, the unsorted tasks join the waiting list, its ready tasks
   * move to the run queue, and when the run queue had nothing the head is
   * taken again.
   */
  function PollPrecompute(q: Queues, view: TaskView, lockFree: bool): (Queues, Polled)
  {
    var first := if q.tasks == [] then NoTask else Got(q.tasks[0]);
    var rest := if q.tasks == [] then [] else q.tasks[1..];
    if !lockFree then (q.(tasks := rest), first)
    else
      var pool := q.waiting + q.unsorted;
      var queue := rest + Promoted(pool, view.ready);
      var q' := q.(waiting := Staying(pool, view.ready), unsorted := []);
      if first.Got? then (q'.(tasks := queue), first)
      else if queue == [] then (q'.(tasks := queue), NoTask)
      else (q'.(tasks := queue[1..]), Got(queue[0]))
  }

  /** getNextTask in the given mode. */
  function NextTask(mode: Mode, q: Queues, view: TaskView, lockFree: bool): (Queues, Polled)
  {
    match mode
    case Unordered => PollUnordered(q)
    case OrderedRetry => PollRetry(q, view)
    case OrderedPrecompute => PollPrecompute(q, view, lockFree)
  }

  /** Rotating an ORDERED_RETRY queue by one: what an iteration of the retry loop does to it. */
  function Rotate(q: seq<object>): seq<object>
  {
    if q == [] then [] else q[1..] + [q[0]]
  }

  function RotateN(q: seq<object>, n: nat): seq<object>
    decreases n
  {
    if n == 0 then q else RotateN(Rotate(q), n - 1)
  }

  lemma {:induction false} RotateNSplit(q: seq<object>, n: nat)
    requires n <= |q|
    ensures RotateN(q, n) == q[n..] + q[..n]
    decreases n
  {
    if n > 0 {
      assert Rotate(q) == q[1..] + q[..1];
      RotateNSplit(Rotate(q), n - 1);
      assert Rotate(q)[n - 1..] == q[n..] + q[..1];
      assert Rotate(q)[..n - 1] == q[1..n];
      assert q[..n] == q[..1] + q[1..n];
    }
  }

  /**
   * When no task is ready the retry loop goes round forever: after |q|
   * rotations the queue is back where it started, no task has become ready,
   * and none was dropped.
   */
  lemma RetryCycles(q: seq<object>, ready: object -> bool)
    requires FirstReady(q, ready) == |q|
    ensures RotateN(q, |q|) == q
    ensures forall n: nat :: n <= |q| ==> multiset(RotateN(q, n)) == multiset(q)
    ensures forall x :: x in q ==> !ready(x)
  {
    RotateNSplit(q, |q|);
    assert q[|q|..] + q[..|q|] == q;
    forall n: nat | n <= |q|
      ensures multiset(RotateN(q, n)) == multiset(q)
    {
      RotateNSplit(q, n);
      assert q == q[..n] + q[n..];
    }
  }

  /**
   * What ORDERED_RETRY yields: a ready task, every task it skipped was not
   * ready and now sits at the tail in its old order, and one retry is
   * counted per skip; it returns null only on an empty queue and never
   * returns when no task is ready.
   */
  lemma RetryPoll(s: Queues, view: TaskView)
    ensures PollRetry(s, view).1.Got? ==> view.ready(PollRetry(s, view).1.task)
    ensures PollRetry(s, view).1.NoTask? <==> s.tasks == []
    ensures PollRetry(s, view).1.Spins? <==> s.tasks != [] && forall x :: x in s.tasks ==> !view.ready(x)
    ensures PollRetry(s, view).1.Got? ==>
      var k := FirstReady(s.tasks, view.ready);
      PollRetry(s, view).1.task == s.tasks[k] &&
      (forall j :: 0 <= j < k ==> !view.ready(s.tasks[j])) &&
      PollRetry(s, view).0.tasks == s.tasks[k + 1..] + s.tasks[..k] &&
      PollRetry(s, view).0.numRetries == s.numRetries + k
  {
    if s.tasks != [] && FirstReady(s.tasks, view.ready) == |s.tasks| {
      forall x | x in s.tasks
        ensures !view.ready(x)
      {
        var j :| 0 <= j < |s.tasks| && s.tasks[j] == x;
      }
    }
  }

  lemma RetryConserves(s: Queues, view: TaskView)
    ensures Held(s) == Held(PollRetry(s, view).0) + PolledTask(PollRetry(s, view).1)
  {
    if s.tasks != [] {
      var k := FirstReady(s.tasks, view.ready);
      if k < |s.tasks| {
        var q := s.tasks;
        assert q == q[..k] + [q[k]] + q[k + 1..];
        assert multiset(q) == multiset(q[k + 1..] + q[..k]) + multiset{q[k]};
      }
    }
  }

  /**
   * What ORDERED_PRECOMPUTE yields: it never spins; without the lock it
   * only takes the head of the run queue; with it, every task still waiting
   * is unready, the unsorted queue is empty, and a task taken after the run
   * queue came up empty is a ready one.
   */
  lemma PrecomputePoll(s: Queues, view: TaskView, lockFree: bool)
    ensures !PollPrecompute(s, view, lockFree).1.Spins?
    ensures s.tasks != [] ==> PollPrecompute(s, view, lockFree).1 == Got(s.tasks[0])
    ensures !lockFree ==> PollPrecompute(s, view, lockFree).0.waiting == s.waiting &&
                          PollPrecompute(s, view, lockFree).0.unsorted == s.unsorted
    ensures lockFree ==> PollPrecompute(s, view, lockFree).0.unsorted == [] &&
                         forall x :: x in PollPrecompute(s, view, lockFree).0.waiting ==> !view.ready(x)
    ensures lockFree && s.tasks == [] && PollPrecompute(s, view, lockFree).1.Got? ==>
              view.ready(PollPrecompute(s, view, lockFree).1.task)
  {
    var pool := s.waiting + s.unsorted;
    PartitionSides(pool, view.ready);
    var P := Promoted(pool, view.ready);
    if P != [] {
      assert P[0] in P;
    }
  }

  lemma PrecomputeConserves(s: Queues, view: TaskView, lockFree: bool)
    ensures Held(s) == Held(PollPrecompute(s, view, lockFree).0) + PolledTask(PollPrecompute(s, view, lockFree).1)
  {
    var rest := if s.tasks == [] then [] else s.tasks[1..];
    var first := if s.tasks == [] then NoTask else Got(s.tasks[0]);
    HeadSplit(s.tasks);
    if lockFree {
      var pool := s.waiting + s.unsorted;
      PartitionExact(pool, view.ready);
      ScanConserves(s, rest, first, Promoted(pool, view.ready), Staying(pool, view.ready));
    }
  }

  lemma HeadSplit(q: seq<object>)
    ensures multiset(q) == multiset(if q == [] then [] else q[1..]) + PolledTask(if q == [] then NoTask else Got(q[0]))
  {
    if q != [] {
      assert q == [q[0]] + q[1..];
    }
  }

  /** The locked branch of ORDERED_PRECOMPUTE, written over the parts it is made of. */
  lemma ScanConserves(s: Queues, rest: seq<object>, first: Polled, promoted: seq<object>, stay: seq<object>)
    requires multiset(s.tasks) == multiset(rest) + PolledTask(first)
    requires multiset(promoted) + multiset(stay) == multiset(s.waiting + s.unsorted)
    ensures var queue := rest + promoted;
      var q' := s.(waiting := stay, unsorted := []);
      (first.Got? ==> Held(s) == Held(q'.(tasks := queue)) + PolledTask(first)) &&
      (!first.Got? && queue == [] ==> Held(s) == Held(q'.(tasks := queue))) &&
      (!first.Got? && queue != [] ==> Held(s) == Held(q'.(tasks := queue[1..])) + PolledTask(Got(queue[0])))
  {
    var queue := rest + promoted;
    calc {
      multiset(queue) + multiset(stay);
      multiset(rest) + multiset(promoted) + multiset(stay);
      multiset(rest) + (multiset(promoted) + multiset(stay));
      multiset(rest) + multiset(s.waiting) + multiset(s.unsorted);
    }
    if !first.Got? && queue != [] {
      assert queue == [queue[0]] + queue[1..];
      calc {
        Held(s);
        multiset(s.tasks) + multiset(s.waiting) + multiset(s.unsorted);
        multiset(rest) + multiset(s.waiting) + multiset(s.unsorted);
        multiset(queue) + multiset(stay);
        multiset(queue[1..]) + multiset{queue[0]} + multiset(stay);
        multiset(queue[1..]) + multiset(stay) + multiset([]) + multiset{queue[0]};
      }
    }
  }

  /** UNORDERED hands out the head of the run queue, ready or not, and keeps every other task. */
  lemma UnorderedPoll(s: Queues)
    ensures Held(s) == Held(PollUnordered(s).0) + PolledTask(PollUnordered(s).1)
    ensures s.tasks == [] <==> PollUnordered(s).1.NoTask?
    ensures s.tasks != [] ==> PollUnordered(s).1 == Got(s.tasks[0]) && PollUnordered(s).0.tasks == s.tasks[1..]
  {
    if s.tasks != [] {
      assert s.tasks == [s.tasks[0]] + s.tasks[1..];
    }
  }

  /** No mode loses or duplicates a task when polling. */
  lemma NextTaskConserves(mode: Mode, q: Queues, view: TaskView, lockFree: bool)
    ensures Held(q) == Held(NextTask(mode, q, view, lockFree).0) + PolledTask(NextTask(mode, q, view, lockFree).1)
  {
    match mode
    case Unordered => UnorderedPoll(q);
    case OrderedRetry => RetryConserves(q, view);
    case OrderedPrecompute => PrecomputeConserves(q, view, lockFree);
  }

  /**
   * call(c): a Behaviour handed back while the scheduler runs is counted and
   * queued according to the mode; anything else is ignored.
   */
  function Submit<W>(s: Snapshot<W>, c: object, view: TaskView): Snapshot<W>
  {
    if s.state != Running || !view.isBehaviour(c) then s
    else Enqueued(Counted(s, c, view), c, view)
  }

  /** The counters call(c) updates for every accepted task: run time, per-class count, total count. */
  function Counted<W>(s: Snapshot<W>, c: object, view: TaskView): Snapshot<W>
  {
    s.(totalRunTime := s.totalRunTime + view.runTime(c),
       taskCount := Bump(s.taskCount, view.kind(c)),
       numTasks := s.numTasks + 1)
  }

  /** Where call(c) queues an accepted task: the run queue, or the unsorted queue (counted) when unready under ORDERED_PRECOMPUTE. */
  function Enqueued<W>(s: Snapshot<W>, c: object, view: TaskView): Snapshot<W>
  {
    var q := s.queues;
    match s.mode
    case Unordered => s.(queues := q.(tasks := q.tasks + [c]))
    case OrderedRetry => s.(queues := q.(tasks := q.tasks + [c]))
    case OrderedPrecompute =>
      if view.ready(c) then s.(queues := q.(tasks := q.tasks + [c]))
      else s.(waitingCount := s.waitingCount + 1,
               queues := q.(unreadyCount := Bump(q.unreadyCount, view.kind(c)),
                            unsorted := q.unsorted + [c]))
  }

  /**
   * A submission adds the task to exactly one queue, and only a running
   * scheduler accepts it; under ORDERED_PRECOMPUTE an unready task goes to
   * the unsorted queue and is counted as waiting, a ready one to the run queue.
   */
  lemma SubmitQueues<W>(s: Snapshot<W>, c: object, view: TaskView)
    ensures var s' := Submit(s, c, view);
      (s.state == Running && view.isBehaviour(c) ==>
         Held(s'.queues) == Held(s.queues) + multiset{c} && s'.numTasks == s.numTasks + 1 &&
         s'.taskCount[view.kind(c)] == (if view.kind(c) in s.taskCount then s.taskCount[view.kind(c)] else 0) + 1 &&
         s'.totalRunTime == s.totalRunTime + view.runTime(c)) &&
      (!(s.state == Running && view.isBehaviour(c)) ==> s' == s) &&
      (s.state == Running && view.isBehaviour(c) && s.mode == OrderedPrecompute ==>
         (view.ready(c) ==> s'.queues.tasks == s.queues.tasks + [c] && s'.queues.unsorted == s.queues.unsorted &&
                            s'.waitingCount == s.waitingCount && s'.queues.unreadyCount == s.queues.unreadyCount) &&
         (!view.ready(c) ==> s'.queues.unsorted == s.queues.unsorted + [c] && s'.queues.tasks == s.queues.tasks &&
                             s'.waitingCount == s.waitingCount + 1 &&
                             s'.queues.unreadyCount.Keys == s.queues.unreadyCount.Keys + {view.kind(c)} &&
                             s'.queues.unreadyCount[view.kind(c)] ==
                               (if view.kind(c) in s.queues.unreadyCount then s.queues.unreadyCount[view.kind(c)] else 0) + 1 &&
                             forall j :: j in s.queues.unreadyCount && j != view.kind(c) ==>
                               s'.queues.unreadyCount[j] == s.queues.unreadyCount[j])) &&
      (s.state == Running && view.isBehaviour(c) && s.mode != OrderedPrecompute ==>
         s'.queues == s.queues.(tasks := s.queues.tasks + [c]) && s'.waitingCount == s.waitingCount)
  {
  }

  /** Several submissions in order. */
  function SubmitAll<W>(s: Snapshot<W>, cs: seq<object>, view: TaskView): Snapshot<W>
    decreases |cs|
  {
    if cs == [] then s else SubmitAll(Submit(s, cs[0], view), cs[1..], view)
  }

  /** Submitting one more task after several: SubmitAll unrolled from the back. */
  lemma {:induction false} SubmitAllAppend<W>(s: Snapshot<W>, cs: seq<object>, c: object, view: TaskView)
    ensures SubmitAll(s, cs + [c], view) == Submit(SubmitAll(s, cs, view), c, view)
    decreases |cs|
  {
    if cs == [] {
      assert cs + [c] == [c];
    } else {
      assert (cs + [c])[1..] == cs[1..] + [c];
      SubmitAllAppend(Submit(s, cs[0], view), cs[1..], c, view);
    }
  }

  /** The result of a slice: the new snapshot, the tasks handed to idle workers and to whom, and what was left for the caller. */
  datatype Handed<W> = Handed(after: Snapshot<W>, handed: seq<object>, to: seq<W>, last: Polled)

  /** One poll in the snapshot's own mode. */
  function Poll<W>(s: Snapshot<W>, view: TaskView, lockFree: bool): (Snapshot<W>, Polled)
  {
    var n := NextTask(s.mode, s.queues, view, lockFree);
    (s.(queues := n.0), n.1)
  }

  /**
   * The hand-off loop of slice: while there is a task and an idle worker,
   * the first idle worker leaves the idle queue and gets the task, and the
   * next task is polled.
   */
  function Handoff<W>(s: Snapshot<W>, p: Polled, view: TaskView, lockFree: bool): (h: Handed<W>)
    ensures |h.handed| == |h.to|
    decreases |s.idle|
  {
    if p.Got? && s.idle != [] then
      var n := Poll(s.(idle := s.idle[1..]), view, lockFree);
      var r := Handoff(n.0, n.1, view, lockFree);
      Handed(r.after, [p.task] + r.handed, [s.idle[0]] + r.to, r.last)
    else Handed(s, [], [], p)
  }

  /**
   * slice(worker): nothing when stopped; otherwise the hand-off loop, then
   * the caller gets the leftover task, or joins the idle queue when there was
   * none and fewer than all but one worker are idle.
   */
  function Slice<W>(s: Snapshot<W>, caller: W, view: TaskView, lockFree: bool): Handed<W>
  {
    if s.state == Stopped then Handed(s, [], [], NoTask)
    else
      var n := Poll(s, view, lockFree);
      var h := Handoff(n.0, n.1, view, lockFree);
      if h.last.NoTask? && |h.after.idle| + 1 < |h.after.threads|
      then h.(after := h.after.(idle := h.after.idle + [caller]))
      else h
  }

  /**
   * The hand-off loop loses or duplicates no task: what the scheduler held,
   * plus the task in hand, is what it holds now plus what it handed out plus
   * what is left for the caller.
   */
  lemma {:induction false} HandoffConserves<W>(s: Snapshot<W>, p: Polled, view: TaskView, lockFree: bool)
    ensures var h := Handoff(s, p, view, lockFree);
      Held(s.queues) + PolledTask(p) == Held(h.after.queues) + multiset(h.handed) + PolledTask(h.last)
    decreases |s.idle|
  {
    if p.Got? && s.idle != [] {
      var s0 := s.(idle := s.idle[1..]);
      var n := Poll(s0, view, lockFree);
      NextTaskConserves(s0.mode, s0.queues, view, lockFree);
      HandoffConserves(n.0, n.1, view, lockFree);
      var r := Handoff(n.0, n.1, view, lockFree);
      calc {
        Held(s.queues) + PolledTask(p);
        Held(n.0.queues) + PolledTask(n.1) + multiset{p.task};
        Held(r.after.queues) + multiset(r.handed) + PolledTask(r.last) + multiset{p.task};
        Held(r.after.queues) + multiset([p.task] + r.handed) + PolledTask(r.last);
      }
    }
  }

  /**
   * The hand-off loop wakes idle workers from the front of the idle queue,
   * one per task, and stops with a task left over only when no idle worker
   * is left; it changes nothing but the queues and the idle queue.
   */
  lemma {:induction false} HandoffWorkers<W>(s: Snapshot<W>, p: Polled, view: TaskView, lockFree: bool)
    ensures var h := Handoff(s, p, view, lockFree);
      |h.to| <= |s.idle| && h.to == s.idle[..|h.to|] && h.after.idle == s.idle[|h.to|..] &&
      (h.last.Got? ==> h.after.idle == []) &&
      h.after == s.(queues := h.after.queues, idle := h.after.idle)
    decreases |s.idle|
  {
    if p.Got? && s.idle != [] {
      var s0 := s.(idle := s.idle[1..]);
      var n := Poll(s0, view, lockFree);
      HandoffWorkers(n.0, n.1, view, lockFree);
      var r := Handoff(n.0, n.1, view, lockFree);
      assert s.idle[..|r.to| + 1] == [s.idle[0]] + s.idle[1..][..|r.to|];
    }
  }

  /** A slice neither loses nor duplicates a task, and a stopped scheduler hands nothing out. */
  lemma SliceConserves<W>(s: Snapshot<W>, caller: W, view: TaskView, lockFree: bool)
    ensures Held(s.queues) == Held(Slice(s, caller, view, lockFree).after.queues) +
                              multiset(Slice(s, caller, view, lockFree).handed) +
                              PolledTask(Slice(s, caller, view, lockFree).last)
    ensures s.state == Stopped ==> Slice(s, caller, view, lockFree) == Handed(s, [], [], NoTask)
  {
    if s.state == Running {
      var n := Poll(s, view, lockFree);
      var h := Handoff(n.0, n.1, view, lockFree);
      NextTaskConserves(s.mode, s.queues, view, lockFree);
      HandoffConserves(n.0, n.1, view, lockFree);
      var sl := Slice(s, caller, view, lockFree);
      assert sl.after.queues == h.after.queues && sl.handed == h.handed && sl.last == h.last;
      calc {
        Held(s.queues);
        Held(n.0.queues) + PolledTask(n.1);
        Held(h.after.queues) + multiset(h.handed) + PolledTask(h.last);
      }
    }
  }

  /**
   * A slice wakes idle workers from the front of the idle queue, and the
   * caller joins the idle queue exactly when the scheduler runs, no task was
   * left for it and, once the woken workers have left, fewer than all but
   * one worker are idle.
   */
  lemma SliceIdle<W>(s: Snapshot<W>, caller: W, view: TaskView, lockFree: bool)
    ensures var h := Slice(s, caller, view, lockFree);
      |h.to| <= |s.idle| && h.to == s.idle[..|h.to|] &&
      (if s.state == Running && h.last.NoTask? && |s.idle| - |h.to| + 1 < |s.threads|
       then h.after.idle == s.idle[|h.to|..] + [caller]
       else h.after.idle == s.idle[|h.to|..])
  {
    if s.state == Running {
      var n := Poll(s, view, lockFree);
      HandoffWorkers(n.0, n.1, view, lockFree);
    }
  }

  /**
   * The tasks handed to one worker by the hand-off loop, in order: `to[i]`
   * got `handed[i]`.
   */
  function Inbox<W(==)>(w: W, to: seq<W>, handed: seq<object>): seq<object>
    requires |to| == |handed|
    decreases |to|
  {
    if to == [] then []
    else Inbox(w, to[..|to| - 1], handed[..|handed| - 1]) + (if to[|to| - 1] == w then [handed[|handed| - 1]] else [])
  }

  /** A worker's inbox holds exactly the tasks handed to it, in the order they were handed. */
  lemma {:induction false} InboxExact<W>(w: W, to: seq<W>, handed: seq<object>)
    requires |to| == |handed|
    ensures |Inbox(w, to, handed)| == multiset(to)[w]
    ensures forall x :: x in Inbox(w, to, handed) ==> exists i :: 0 <= i < |to| && to[i] == w && handed[i] == x
    ensures w !in to ==> Inbox(w, to, handed) == []
    decreases |to|
  {
    if to != [] {
      var n := |to| - 1;
      InboxExact(w, to[..n], handed[..n]);
      assert to == to[..n] + [to[n]];
      assert multiset(to) == multiset(to[..n]) + multiset{to[n]};
      forall x | x in Inbox(w, to, handed)
        ensures exists i :: 0 <= i < |to| && to[i] == w && handed[i] == x
      {
        if x in Inbox(w, to[..n], handed[..n]) {
          var i :| 0 <= i < n && to[..n][i] == w && handed[..n][i] == x;
          assert to[i] == w && handed[i] == x;
        } else {
          assert to[n] == w && handed[n] == x;
        }
      }
    }
  }

  /** A worker the hand-off loop never chose receives nothing. */
  lemma InboxAbsent<W>(w: W, to: seq<W>, handed: seq<object>)
    requires |to| == |handed| && w !in to
    ensures Inbox(w, to, handed) == []
  {
    InboxExact(w, to, handed);
  }

  /** The tasks of a drain pass that go back to the scheduler: those whose run returned true, up to an interrupt. */
  function Resubmitted(ts: seq<object>, outcome: nat -> Outcome, from: nat): seq<object>
    decreases |ts|
  {
    if ts == [] then []
    else match outcome(from)
      case Interrupted => []
      case Threw => Resubmitted(ts[1..], outcome, from + 1)
      case Returned(again) => (if again then [ts[0]] else []) + Resubmitted(ts[1..], outcome, from + 1)
  }

  /** How many tasks a drain pass takes off the worker's queue: all of them, or up to and including the interrupted one. */
  function Consumed(ts: seq<object>, outcome: nat -> Outcome, from: nat): (n: nat)
    ensures n <= |ts|
    decreases |ts|
  {
    if ts == [] then 0
    else if outcome(from).Interrupted? then 1
    else 1 + Consumed(ts[1..], outcome, from + 1)
  }

  /**
   * A drain pass hands back only tasks whose run returned true, each in its
   * own position.
   */
  lemma {:induction false} DrainResubmits(ts: seq<object>, outcome: nat -> Outcome, from: nat)
    ensures forall x :: x in Resubmitted(ts, outcome, from) ==>
      exists j :: 0 <= j < |ts| && ts[j] == x && outcome(from + j) == Returned(true)
    decreases |ts|
  {
    if ts != [] && !outcome(from).Interrupted? {
      DrainResubmits(ts[1..], outcome, from + 1);
      forall x | x in Resubmitted(ts, outcome, from)
        ensures exists j :: 0 <= j < |ts| && ts[j] == x && outcome(from + j) == Returned(true)
      {
        if x in Resubmitted(ts[1..], outcome, from + 1) {
          var j :| 0 <= j < |ts[1..]| && ts[1..][j] == x && outcome(from + 1 + j) == Returned(true);
          assert ts[j + 1] == x && outcome(from + (j + 1)) == Returned(true);
        } else {
          assert ts[0] == x && outcome(from + 0) == Returned(true);
        }
      }
    }
  }

  /**
   * Conversely, every task run before the interrupt, if any, keeps its place:
   * the pass resubmits what the tasks before it resubmit, then the task
   * itself exactly when its run returned true, then what the tasks after it
   * resubmit.
   */
  lemma {:induction false} DrainKeepsOrder(ts: seq<object>, outcome: nat -> Outcome, from: nat, j: nat)
    requires j < |ts| && forall k :: from <= k <= from + j ==> !outcome(k).Interrupted?
    ensures Resubmitted(ts, outcome, from) ==
      Resubmitted(ts[..j], outcome, from) + (if outcome(from + j) == Returned(true) then [ts[j]] else []) +
      Resubmitted(ts[j + 1..], outcome, from + j + 1)
    decreases j
  {
    if j == 0 {
      assert ts[..0] == [] && ts[1..] == ts[j + 1..];
    } else {
      DrainKeepsOrder(ts[1..], outcome, from + 1, j - 1);
      assert ts[1..][..j - 1] == ts[..j][1..] && ts[1..][j - 1] == ts[j] && ts[1..][j..] == ts[j + 1..];
      assert !outcome(from).Interrupted?;
    }
  }

  /**
   * What a drain pass hands the scheduler, run by run: the behaviours the
   * i-th run announced (`births(i)`, each handed to call by handleEvent's
   * NEW_BEHAVIOUR case), then the task itself when its run returned true,
   * all judged by the task view at the end of that run (`views(i)`). A run
   * that throws or is interrupted still delivers what it announced; an
   * interrupt ends the pass.
   */
  function Fed<W>(s: Snapshot<W>, ts: seq<object>, outcome: nat -> Outcome, births: nat -> seq<object>,
                  views: nat -> TaskView, from: nat): Snapshot<W>
    decreases |ts|
  {
    if ts == [] then s
    else
      var s1 := SubmitAll(s, births(from), views(from));
      match outcome(from)
      case Interrupted => s1
      case Threw => Fed(s1, ts[1..], outcome, births, views, from + 1)
      case Returned(again) => Fed(if again then Submit(s1, ts[0], views(from)) else s1, ts[1..], outcome, births, views, from + 1)
  }

  /**
   * When no run announces anything and the task view never changes, a drain
   * pass hands the scheduler exactly the tasks Resubmitted names, in order.
   */
  lemma {:induction false} FedQuiet<W>(s: Snapshot<W>, ts: seq<object>, outcome: nat -> Outcome,
                                       births: nat -> seq<object>, views: nat -> TaskView, view: TaskView, from: nat)
    requires forall k :: from <= k < from + |ts| ==> births(k) == [] && views(k) == view
    ensures Fed(s, ts, outcome, births, views, from) == SubmitAll(s, Resubmitted(ts, outcome, from), view)
    decreases |ts|
  {
    if ts != [] {
      assert births(from) == [] && views(from) == view;
      assert SubmitAll(s, births(from), views(from)) == s;
      match outcome(from)
      case Interrupted =>
      case Threw =>
        FedQuiet(s, ts[1..], outcome, births, views, view, from + 1);
      case Returned(again) =>
        if again {
          FedQuiet(Submit(s, ts[0], view), ts[1..], outcome, births, views, view, from + 1);
          assert [ts[0]] + Resubmitted(ts[1..], outcome, from + 1) == Resubmitted(ts, outcome, from);
        } else {
          FedQuiet(s, ts[1..], outcome, births, views, view, from + 1);
          assert Fed(s, ts, outcome, births, views, from) == Fed(s, ts[1..], outcome, births, views, from + 1);
          assert Resubmitted(ts, outcome, from) == Resubmitted(ts[1..], outcome, from + 1);
        }
    }
  }

  /** A drain pass changes only the queues and the counters of the scheduler. */
  lemma {:induction false} FedFrame<W>(s: Snapshot<W>, ts: seq<object>, outcome: nat -> Outcome,
                                       births: nat -> seq<object>, views: nat -> TaskView, from: nat)
    ensures var s' := Fed(s, ts, outcome, births, views, from);
      s'.state == s.state && s'.mode == s.mode && s'.threads == s.threads && s'.idle == s.idle &&
      s'.numWorkers == s.numWorkers
    decreases |ts|
  {
    if ts != [] {
      var s1 := SubmitAll(s, births(from), views(from));
      SubmitAllFrame(s, births(from), views(from));
      match outcome(from)
      case Interrupted =>
      case Threw =>
        FedFrame(s1, ts[1..], outcome, births, views, from + 1);
      case Returned(again) =>
        FedFrame(if again then Submit(s1, ts[0], views(from)) else s1, ts[1..], outcome, births, views, from + 1);
    }
  }

  /** Without an interrupt a drain pass empties the worker's queue. */
  lemma {:induction false} DrainTakesAll(ts: seq<object>, outcome: nat -> Outcome, from: nat)
    requires forall j :: from <= j < from + |ts| ==> !outcome(j).Interrupted?
    ensures Consumed(ts, outcome, from) == |ts|
    decreases |ts|
  {
    if ts != [] {
      DrainTakesAll(ts[1..], outcome, from + 1);
    }
  }

  /** Submissions change only the queues and the counters. */
  lemma {:induction false} SubmitAllFrame<W>(s: Snapshot<W>, cs: seq<object>, view: TaskView)
    ensures var s' := SubmitAll(s, cs, view);
      s'.state == s.state && s'.mode == s.mode && s'.threads == s.threads && s'.idle == s.idle &&
      s'.numWorkers == s.numWorkers
    decreases |cs|
  {
    if cs != [] {
      SubmitAllFrame(Submit(s, cs[0], view), cs[1..], view);
    }
  }
}
