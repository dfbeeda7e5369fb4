/**
 * The scheduler and its worker threads as objects. Every operation is
 * proved to do to the scheduler's fields what the functions of
 * SchedulingSpec say, so the lemmas proved there (no task lost or
 * duplicated, readiness of what is handed out, idle-queue discipline) hold
 * of the objects too.
 */
module Scheduling {
  import opened Base
  import opened Events
  import opened SchedulingSpec

  /** The per-class counters after startLogging: the same classes, every count zero. */
  function Zeroed(m: map<string, int>): map<string, int>
  {
    map k | k in m :: 0
  }

  /** startLogging's loop over the counters of a map: keys kept, values set to zero. */
  method ZeroCounters(m: map<string, int>) returns (r: map<string, int>)
    ensures r.Keys == m.Keys
    ensures forall k :: k in r ==> r[k] == 0
    ensures r == Zeroed(m)
  {
    r := m;
    var todo := m.Keys;
    while todo != {}
      invariant todo <= m.Keys && r.Keys == m.Keys
      invariant forall k :: k in r && k !in todo ==> r[k] == 0
      decreases todo
    {
      var k :| k in todo;
      r := r[k := 0];
      todo := todo - {k};
    }
  }

  class Scheduler {
    var threads: seq<WorkerThread>
    var idleThreads: seq<WorkerThread>
    var tasks: seq<object>
    var waitingTasks: seq<object>
    var unsortedTasks: seq<object>
    var numTasks: int
    var taskCount: map<string, int>
    var numRetries: int
    var unreadyCount: map<string, int>
    var waitingCount: int
    var totalRunTime: int
    var numWorkers: int
    var state: State
    var mode: Mode

    /** The fields getNextTask works on. */
    function Queued(): Queues
      reads this
    {
      Queues(tasks, waitingTasks, unsortedTasks, numRetries, unreadyCount)
    }

    /** All of the scheduler's fields as one value. */
    function Snap(): Snapshot<WorkerThread>
      reads this
    {
      Snapshot(state, mode, Queued(), numTasks, taskCount, waitingCount, totalRunTime,
               numWorkers, threads, idleThreads)
    }

    /** A new scheduler is stopped, in ORDERED_PRECOMPUTE mode, with no workers, tasks or counts. */
    constructor ()
      ensures Snap() == Snapshot(Stopped, OrderedPrecompute, Queues([], [], [], 0, map[]),
                                 0, map[], 0, 0, 0, [], [])
    {
      threads := [];
      idleThreads := [];
      tasks := [];
      waitingTasks := [];
      unsortedTasks := [];
      numTasks := 0;
      taskCount := map[];
      numRetries := 0;
      unreadyCount := map[];
      waitingCount := 0;
      totalRunTime := 0;
      numWorkers := 0;
      state := Stopped;
      mode := OrderedPrecompute;
    }

    /**
     * start(): one new worker per processor is added to the thread list,
     * numWorkers becomes the list's size, the counters are zeroed and the
     * scheduler runs.
     */
    method Start(processors: nat)
      modifies this
      ensures |threads| == |old(threads)| + processors && threads[..|old(threads)|] == old(threads)
      ensures forall i :: |old(threads)| <= i < |threads| ==>
        fresh(threads[i]) && threads[i].tasks == [] && threads[i].scheduler == this
      ensures Snap() == old(Snap()).(state := Running, numWorkers := |threads|, threads := threads,
                                     numTasks := 0, taskCount := Zeroed(old(taskCount)),
                                     waitingCount := 0, totalRunTime := 0,
                                     queues := old(Queued()).(numRetries := 0, unreadyCount := Zeroed(old(unreadyCount))))
    {
      AddWorkers(processors);
      numWorkers := |threads|;
      numTasks := 0;
      taskCount := ZeroCounters(taskCount);
      unreadyCount := ZeroCounters(unreadyCount);
      numRetries := 0;
      waitingCount := 0;
      totalRunTime := 0;
      state := Running;
    }

    /** The thread-creating loop of start(). */
    method AddWorkers(processors: nat)
      modifies this
      ensures |threads| == |old(threads)| + processors && threads[..|old(threads)|] == old(threads)
      ensures forall i :: |old(threads)| <= i < |threads| ==>
        fresh(threads[i]) && threads[i].tasks == [] && threads[i].scheduler == this
      ensures Snap() == old(Snap()).(threads := threads)
    {
      var i := 0;
      while i < processors
        invariant 0 <= i <= processors
        invariant |threads| == |old(threads)| + i && threads[..|old(threads)|] == old(threads)
        invariant forall j :: |old(threads)| <= j < |threads| ==>
          fresh(threads[j]) && threads[j].tasks == [] && threads[j].scheduler == this
        invariant Snap() == old(Snap()).(threads := threads)
      {
        var t := new WorkerThread(this);
        threads := threads + [t];
        i := i + 1;
      }
    }

    /** stop(): the scheduler stops and forgets its threads and its run queue; nothing else is cleared. */
    method Stop()
      modifies this
      ensures Snap() == old(Snap()).(state := Stopped, threads := [], queues := old(Queued()).(tasks := []))
    {
      state := Stopped;
      threads := [];
      tasks := [];
    }

    /** getNextTask(): one poll in the current mode, as NextTask says. */
    method GetNextTask(view: TaskView, lockFree: bool) returns (p: Polled)
      modifies this
      ensures Queued() == NextTask(old(mode), old(Queued()), view, lockFree).0
      ensures p == NextTask(old(mode), old(Queued()), view, lockFree).1
      ensures Snap() == old(Snap()).(queues := Queued())
    {
      var q := Queued();
      var r: Queues;
      match mode {
        case Unordered =>
          r, p := PollFirst(q);
        case OrderedRetry =>
          r, p := PollRetrying(q, view);
        case OrderedPrecompute =>
          r, p := PollPrecomputing(q, view, lockFree);
      }
      Store(r);
    }

    /** Writes the queues and the counters getNextTask works on. */
    method Store(r: Queues)
      modifies this
      ensures Queued() == r
      ensures Snap() == old(Snap()).(queues := r)
    {
      tasks, waitingTasks, unsortedTasks := r.tasks, r.waiting, r.unsorted;
      numRetries, unreadyCount := r.numRetries, r.unreadyCount;
    }

    /**
     * call(c): a Behaviour handed back to a running scheduler is counted
     * and queued according to the mode.
     */
    method Call(c: object, view: TaskView)
      modifies this
      ensures Snap() == Submit(old(Snap()), c, view)
    {
      if state != Running || !view.isBehaviour(c) {
        return;
      }
      CountRun(c, view);
      Enqueue(c, view);
    }

    /** The counting half of call(c). */
    method CountRun(c: object, view: TaskView)
      modifies this
      ensures Snap() == Counted(old(Snap()), c, view)
    {
      totalRunTime := totalRunTime + view.runTime(c);
      taskCount := Bump(taskCount, view.kind(c));
      numTasks := numTasks + 1;
    }

    /** The queueing half of call(c). */
    method Enqueue(c: object, view: TaskView)
      modifies this
      ensures Snap() == Enqueued(old(Snap()), c, view)
    {
      match mode
      case Unordered =>
        tasks := tasks + [c];
      case OrderedRetry =>
        tasks := tasks + [c];
      case OrderedPrecompute =>
        if view.ready(c) {
          tasks := tasks + [c];
        } else {
          waitingCount := waitingCount + 1;
          unreadyCount := Bump(unreadyCount, view.kind(c));
          unsortedTasks := unsortedTasks + [c];
        }
    }

    /** handleEvent: a NEW_BEHAVIOUR announcement submits its source; every other event is ignored. */
    method HandleEvent(e: Event, view: TaskView)
      modifies this
      ensures Snap() == (if e.value == Generic(NewBehaviour) then Submit(old(Snap()), e.source, view) else old(Snap()))
    {
      if e.value == Generic(NewBehaviour) {
        Call(e.source, view);
      }
    }

    /**
     * slice(worker): poll; while there is a task and an idle worker, hand
     * the task to the first idle worker and poll again; then give the
     * leftover task to the caller, or queue the caller as idle. `hung` is
     * true when a poll never returns.
     */
    method Slice(worker: WorkerThread, view: TaskView, lockFree: bool) returns (hung: bool)
      modifies this, worker, set w | w in idleThreads
      ensures var h := SchedulingSpec.Slice(old(Snap()), worker, view, lockFree);
        Snap() == h.after && hung == h.last.Spins? &&
        forall w :: w in old(idleThreads) || w == worker ==>
          w.tasks == old(w.tasks) + Inbox(w, h.to, h.handed) + (if w == worker && h.last.Got? then [h.last.task] else [])
    {
      if state == Stopped {
        return false;
      }
      var p := GetNextTask(view, lockFree);
      ghost var polled := Snap();
      SliceFinish(old(Snap()), polled, Handoff(polled, p, view, lockFree), worker, view, lockFree);
      p := Deliver(worker, p, view, lockFree);
      hung := p.Spins?;
    }

    /** The hand-off loop and the end of slice, from the task the first poll returned. */
    method Deliver(worker: WorkerThread, p0: Polled, view: TaskView, lockFree: bool) returns (p: Polled)
      modifies this, worker, set w | w in idleThreads
      ensures var h := Handoff(old(Snap()), p0, view, lockFree);
        p == h.last &&
        Snap() == (if h.last.NoTask? && |h.after.idle| + 1 < |h.after.threads|
                   then h.after.(idle := h.after.idle + [worker]) else h.after) &&
        forall w :: w in old(idleThreads) || w == worker ==>
          w.tasks == old(w.tasks) + Inbox(w, h.to, h.handed) + (if w == worker && h.last.Got? then [h.last.task] else [])
    {
      ghost var h := Handoff(Snap(), p0, view, lockFree);
      HandoffWorkers(Snap(), p0, view, lockFree);
      p := HandOut(p0, view, lockFree);
      label handedOut:
      Settle(worker, p);
      forall w | w in old(idleThreads) || w == worker
        ensures w.tasks == old(w.tasks) + Inbox(w, h.to, h.handed) + (if w == worker && h.last.Got? then [h.last.task] else [])
      {
        if w !in old(idleThreads) {
          assert w !in h.to;
          InboxAbsent(w, h.to, h.handed);
          assert old@handedOut(w.tasks) == old(w.tasks);
        } else {
          assert old@handedOut(w.tasks) == old(w.tasks) + Inbox(w, h.to, h.handed);
        }
        if w != worker {
          assert w.tasks == old@handedOut(w.tasks);
        }
      }
    }

    /** The end of slice: the caller gets the leftover task, or joins the idle queue when there is room. */
    method Settle(worker: WorkerThread, p: Polled)
      modifies this`idleThreads, worker
      ensures worker.tasks == old(worker.tasks) + (if p.Got? then [p.task] else [])
      ensures Snap() == old(Snap()).(idle := if p.NoTask? && old(|idleThreads|) + 1 < |threads| then old(idleThreads) + [worker] else old(idleThreads))
    {
      if p.Got? {
        worker.Call(p.task);
      } else if p.NoTask? && |idleThreads| + 1 < |threads| {
        idleThreads := idleThreads + [worker];
      }
    }

    /** The hand-off loop of slice: while there is a task and an idle worker, the first idle worker gets it. */
    method HandOut(p0: Polled, view: TaskView, lockFree: bool) returns (p: Polled)
      modifies this, set w | w in idleThreads
      ensures var h := Handoff(old(Snap()), p0, view, lockFree);
        Snap() == h.after && p == h.last &&
        forall w :: w in old(idleThreads) ==> w.tasks == old(w.tasks) + Inbox(w, h.to, h.handed)
    {
      p := p0;
      ghost var idle0 := idleThreads;
      ghost var base := map w | w in idle0 :: w.tasks;
      ghost var whole := Handoff(Snap(), p, view, lockFree);
      ghost var to: seq<WorkerThread> := [];
      ghost var handed: seq<object> := [];
      HandoffRestStart(whole);
      while p.Got? && idleThreads != []
        invariant |to| <= |idle0| && |handed| == |to|
        invariant idleThreads == idle0[|to|..]
        invariant HandoffRest(whole, Handoff(Snap(), p, view, lockFree), to, handed)
        invariant Delivered(idle0, base, to, handed)
        decreases |idleThreads|
      {
        var t := p.task;
        var w;
        w, p := HandOne(t, view, lockFree, idle0, base, whole, to, handed);
        assert idleThreads == idle0[|to| + 1..];
        to := to + [w];
        handed := handed + [t];
      }
      HandoffRestDone(whole, Snap(), p, view, lockFree, to, handed);
    }

    /**
     * One turn of the hand-off loop: the first idle worker leaves the idle
     * queue, gets `t`, and the next task is polled. The ghost parameters
     * carry what the loop has handed out so far.
     */
    method HandOne(t: object, view: TaskView, lockFree: bool, ghost idle0: seq<WorkerThread>,
                   ghost base: map<WorkerThread, seq<object>>, ghost whole: Handed<WorkerThread>,
                   ghost to: seq<WorkerThread>, ghost handed: seq<object>)
      returns (w: WorkerThread, p: Polled)
      requires idleThreads != [] && |to| == |handed|
      requires Delivered(idle0, base, to, handed)
      requires HandoffRest(whole, Handoff(Snap(), Got(t), view, lockFree), to, handed)
      modifies this, idleThreads[0]
      ensures w == old(idleThreads[0]) && Delivered(idle0, base, to + [w], handed + [t])
      ensures idleThreads == old(idleThreads)[1..]
      ensures HandoffRest(whole, Handoff(Snap(), p, view, lockFree), to + [w], handed + [t])
    {
      ghost var before := Snap();
      w := idleThreads[0];
      idleThreads := idleThreads[1..];
      w.Call(t);
      forall v | v in idle0
        ensures v in base && v.tasks == base[v] + Inbox(v, to + [w], handed + [t])
      {
        HandoffStep(v, w, t, to, handed);
      }
      p := GetNextTask(view, lockFree);
      PollWithoutHead(before, view, lockFree, Snap(), p);
      HandoffUnfold(whole, before, t, Snap(), p, view, lockFree, to, handed);
    }
  }

  /** Every worker of `idle0` holds what it held at the start, `base`, plus what the hand-off gave it. */
  ghost predicate Delivered(idle0: seq<WorkerThread>, base: map<WorkerThread, seq<object>>,
                            to: seq<WorkerThread>, handed: seq<object>)
    requires |to| == |handed|
    reads set w | w in idle0
  {
    forall w :: w in idle0 ==> w in base && w.tasks == base[w] + Inbox(w, to, handed)
  }

  /** How slice's last step completes the Slice function, given the hand-off. */
  lemma SliceFinish(s: Snapshot<WorkerThread>, polled: Snapshot<WorkerThread>, h: Handed<WorkerThread>,
                    worker: WorkerThread, view: TaskView, lockFree: bool)
    requires s.state != Stopped
    requires var n := NextTask(s.mode, s.queues, view, lockFree); polled == s.(queues := n.0)
    requires h == Handoff(polled, NextTask(s.mode, s.queues, view, lockFree).1, view, lockFree)
    ensures var sl := SchedulingSpec.Slice(s, worker, view, lockFree);
      sl.handed == h.handed && sl.to == h.to && sl.last == h.last &&
      sl.after == (if h.last.NoTask? && |h.after.idle| + 1 < |h.after.threads|
                   then h.after.(idle := h.after.idle + [worker]) else h.after)
  {
  }

  /** `whole` is what remains, `rest`, after handing `handed` to `to`. */
  ghost predicate HandoffRest(whole: Handed<WorkerThread>, rest: Handed<WorkerThread>, to: seq<WorkerThread>, handed: seq<object>)
  {
    whole.after == rest.after && whole.last == rest.last &&
    whole.handed == handed + rest.handed && whole.to == to + rest.to
  }

  /** Polling once the first idle worker has left the idle queue gives the next snapshot and task. */
  lemma PollWithoutHead(s: Snapshot<WorkerThread>, view: TaskView, lockFree: bool, next: Snapshot<WorkerThread>, p: Polled)
    requires s.idle != []
    requires var n := NextTask(s.mode, s.queues, view, lockFree);
      next == s.(idle := s.idle[1..], queues := n.0) && p == n.1
    ensures Poll(s.(idle := s.idle[1..]), view, lockFree) == (next, p)
  {
  }

  /** Before the hand-off loop nothing has been handed out. */
  lemma HandoffRestStart(whole: Handed<WorkerThread>)
    ensures HandoffRest(whole, whole, [], [])
  {
    assert [] + whole.handed == whole.handed && [] + whole.to == whole.to;
  }

  /** When the hand-off loop stops, what it handed out is the whole hand-off. */
  lemma HandoffRestDone(whole: Handed<WorkerThread>, s: Snapshot<WorkerThread>, p: Polled, view: TaskView, lockFree: bool,
                        to: seq<WorkerThread>, handed: seq<object>)
    requires !(p.Got? && s.idle != [])
    requires HandoffRest(whole, Handoff(s, p, view, lockFree), to, handed)
    ensures whole == Handed(s, handed, to, p)
  {
    assert handed + [] == handed && to + [] == to;
  }

  /** Handoff with a task in hand and an idle worker, unfolded once. */
  lemma HandoffGot(s: Snapshot<WorkerThread>, t: object, next: Snapshot<WorkerThread>, p: Polled, view: TaskView, lockFree: bool)
    requires s.idle != []
    requires Poll(s.(idle := s.idle[1..]), view, lockFree) == (next, p)
    ensures var r := Handoff(next, p, view, lockFree);
      Handoff(s, Got(t), view, lockFree) == Handed(r.after, [t] + r.handed, [s.idle[0]] + r.to, r.last)
  {
  }

  /** One turn of the hand-off loop, in terms of the Handoff function. */
  lemma HandoffUnfold(whole: Handed<WorkerThread>, s: Snapshot<WorkerThread>, t: object,
                      next: Snapshot<WorkerThread>, p: Polled, view: TaskView, lockFree: bool,
                      to: seq<WorkerThread>, handed: seq<object>)
    requires s.idle != []
    requires HandoffRest(whole, Handoff(s, Got(t), view, lockFree), to, handed)
    requires Poll(s.(idle := s.idle[1..]), view, lockFree) == (next, p)
    ensures HandoffRest(whole, Handoff(next, p, view, lockFree), to + [s.idle[0]], handed + [t])
  {
    HandoffGot(s, t, next, p, view, lockFree);
    HandoffRestShift(whole, Handoff(next, p, view, lockFree), t, s.idle[0], to, handed);
  }

  /** Moving one hand-over from the rest of a hand-off to what was handed out so far. */
  lemma HandoffRestShift(whole: Handed<WorkerThread>, r: Handed<WorkerThread>, t: object, w: WorkerThread,
                         to: seq<WorkerThread>, handed: seq<object>)
    requires HandoffRest(whole, Handed(r.after, [t] + r.handed, [w] + r.to, r.last), to, handed)
    ensures HandoffRest(whole, r, to + [w], handed + [t])
  {
    assert handed + ([t] + r.handed) == (handed + [t]) + r.handed;
    assert to + ([w] + r.to) == (to + [w]) + r.to;
  }

  /** The UNORDERED poll: the head of the run queue, ready or not. */
  method PollFirst(q: Queues) returns (r: Queues, p: Polled)
    ensures (r, p) == PollUnordered(q)
  {
    r := q;
    if q.tasks == [] {
      p := NoTask;
    } else {
      p := Got(q.tasks[0]);
      r := q.(tasks := q.tasks[1..]);
    }
  }

  /** The ORDERED_RETRY loop: unready heads go to the tail, counted, until a ready one comes up. */
  method PollRetrying(q: Queues, view: TaskView) returns (r: Queues, p: Polled)
    ensures (r, p) == PollRetry(q, view)
  {
    if q.tasks == [] {
      return q, NoTask;
    }
    if FirstReady(q.tasks, view.ready) == |q.tasks| {
      // every queued task is unready: the source's loop never returns
      return q, Spins;
    }
    ghost var stop := FirstReady(q.tasks, view.ready);
    ghost var k := 0;
    r := q.(tasks := q.tasks[1..]);
    var t := q.tasks[0];
    assert q.tasks[..0] == [];
    while !view.ready(t)
      invariant 0 <= k <= stop && t == q.tasks[k] && r == Retried(q, view.kind, k)
      decreases stop - k
    {
      RetryStep(q, k, view.kind);
      var tasks := r.tasks + [t];
      r := r.(tasks := tasks[1..], numRetries := r.numRetries + 1,
              unreadyCount := Bump(r.unreadyCount, view.kind(t)));
      t := tasks[0];
      k := k + 1;
    }
    p := Got(t);
  }

  /** The queues after `k` turns of the retry loop, the head taken: what the loop invariant tracks. */
  ghost function Retried(q: Queues, kind: object -> string, k: nat): Queues
    requires k < |q.tasks|
  {
    q.(tasks := q.tasks[k + 1..] + q.tasks[..k], numRetries := q.numRetries + k,
       unreadyCount := BumpAll(q.unreadyCount, Kinds(q.tasks[..k], kind)))
  }

  /** One turn of the retry loop moves the state from `k` turns to `k + 1`. */
  lemma RetryStep(q: Queues, k: nat, kind: object -> string)
    requires k + 1 < |q.tasks|
    ensures var r := Retried(q, kind, k); var tasks := r.tasks + [q.tasks[k]];
      tasks[0] == q.tasks[k + 1] &&
      Retried(q, kind, k + 1) == r.(tasks := tasks[1..], numRetries := r.numRetries + 1,
                                    unreadyCount := Bump(r.unreadyCount, kind(q.tasks[k])))
  {
    var s := q.tasks;
    assert s[..k + 1] == s[..k] + [s[k]];
    assert Kinds(s[..k + 1], kind) == Kinds(s[..k], kind) + [kind(s[k])];
    assert (s[k + 1..] + s[..k] + [s[k]])[1..] == s[k + 2..] + s[..k + 1];
  }

  /**
   * The ORDERED_PRECOMPUTE poll: take the head; if the waiting lock is
   * free, move the unsorted tasks to the waiting list, scan it from the
   * back moving ready tasks to the run queue, and poll again when the first
   * poll found nothing.
   */
  method PollPrecomputing(q: Queues, view: TaskView, lockFree: bool) returns (r: Queues, p: Polled)
    ensures (r, p) == PollPrecompute(q, view, lockFree)
  {
    var tasks := q.tasks;
    var first := NoTask;
    if tasks != [] {
      first := Got(tasks[0]);
      tasks := tasks[1..];
    }
    if !lockFree {
      return q.(tasks := tasks), first;
    }
    var waiting := MoveUnsorted(q.waiting, q.unsorted);
    waiting, tasks := PromoteReady(waiting, tasks, view.ready);
    r := q.(waiting := waiting, unsorted := []);
    if first.Got? {
      p := first;
    } else if tasks == [] {
      p := NoTask;
    } else {
      p := Got(tasks[0]);
      tasks := tasks[1..];
    }
    r := r.(tasks := tasks);
  }

  /** The first loop under the waiting lock: every unsorted task joins the tail of the waiting list, in order. */
  method MoveUnsorted(waiting: seq<object>, unsorted: seq<object>) returns (w: seq<object>)
    ensures w == waiting + unsorted
  {
    w := waiting;
    var u := unsorted;
    while u != []
      invariant w + u == waiting + unsorted
      decreases |u|
    {
      var b := u[0];
      assert u == [b] + u[1..];
      u := u[1..];
      w := w + [b];
    }
  }

  /**
   * The backward scan under the waiting lock: every ready waiting task is
   * removed and appended to the run queue; the unready ones stay in order.
   */
  method PromoteReady(waiting: seq<object>, tasks: seq<object>, ready: object -> bool)
    returns (staying: seq<object>, queue: seq<object>)
    ensures staying == Staying(waiting, ready)
    ensures queue == tasks + Promoted(waiting, ready)
  {
    staying, queue := waiting, tasks;
    var i := |waiting| - 1;
    assert waiting[|waiting|..] == [] && waiting[..|waiting|] == waiting;
    while i >= 0
      invariant -1 <= i < |waiting|
      invariant staying == Scanned(waiting, ready, i + 1)
      invariant queue == tasks + Promoted(waiting[i + 1..], ready)
      decreases i + 1
    {
      ScanStep(waiting, ready, i);
      if ready(staying[i]) {
        var b := staying[i];
        staying := staying[..i] + staying[i + 1..];
        queue := queue + [b];
      }
      i := i - 1;
    }
    assert waiting[0..] == waiting;
  }

  /** The waiting list while the backward scan is at `i`: the part not yet scanned, then the unready rest. */
  ghost function Scanned(pool: seq<object>, ready: object -> bool, i: nat): seq<object>
    requires i <= |pool|
  {
    pool[..i] + Staying(pool[i..], ready)
  }

  /** One iteration of the backward scan: the task at `i` is removed when ready and kept otherwise. */
  lemma ScanStep(pool: seq<object>, ready: object -> bool, i: nat)
    requires i < |pool|
    ensures var w := Scanned(pool, ready, i + 1);
      w[i] == pool[i] &&
      (ready(pool[i]) ==> w[..i] + w[i + 1..] == Scanned(pool, ready, i)) &&
      (!ready(pool[i]) ==> w == Scanned(pool, ready, i))
    ensures Promoted(pool[i..], ready) == Promoted(pool[i + 1..], ready) + (if ready(pool[i]) then [pool[i]] else [])
  {
    assert pool[i..][1..] == pool[i + 1..];
    assert pool[..i + 1] == pool[..i] + [pool[i]];
    var w := Scanned(pool, ready, i + 1);
    assert w[..i] == pool[..i];
    assert w[i + 1..] == Staying(pool[i + 1..], ready);
  }

  /** A worker's inbox after one more hand-off. */
  lemma HandoffStep(v: WorkerThread, w: WorkerThread, t: object, to: seq<WorkerThread>, handed: seq<object>)
    requires |to| == |handed|
    ensures Inbox(v, to + [w], handed + [t]) == Inbox(v, to, handed) + (if v == w then [t] else [])
  {
    assert (to + [w])[..|to|] == to;
    assert (handed + [t])[..|handed|] == handed;
  }

  class WorkerThread {
    const scheduler: Scheduler
    var tasks: seq<object>

    constructor (s: Scheduler)
      ensures scheduler == s && tasks == []
    {
      scheduler := s;
      tasks := [];
    }

    /** call(r): the task joins this worker's queue. */
    method Call(r: object)
      modifies this
      ensures tasks == old(tasks) + [r]
    {
      tasks := tasks + [r];
    }

    /**
     * The inner loop of run(): take and run the queued tasks in order. The
     * i-th run of the pass ends with `outcome(i)`; while it runs it announces
     * the behaviours `births(i)` (handleEvent's NEW_BEHAVIOUR case hands each
     * to call), and `views(i)` is the task view once it has run. A task whose
     * run returned true goes back to the scheduler, one that threw is
     * dropped, and an interrupt ends the pass.
     */
    method Drain(outcome: nat -> Outcome, births: nat -> seq<object>, views: nat -> TaskView)
      modifies this, scheduler
      ensures tasks == old(tasks)[Consumed(old(tasks), outcome, 0)..]
      ensures scheduler.Snap() == Fed(old(scheduler.Snap()), old(tasks), outcome, births, views, 0)
    {
      var i := 0;
      while tasks != []
        invariant i <= |old(tasks)| && tasks == old(tasks)[i..]
        invariant Consumed(old(tasks), outcome, 0) == i + Consumed(tasks, outcome, i)
        invariant Fed(old(scheduler.Snap()), old(tasks), outcome, births, views, 0) ==
                  Fed(scheduler.Snap(), tasks, outcome, births, views, i)
        decreases |tasks|
      {
        ghost var rest := tasks;
        var c := tasks[0];
        tasks := tasks[1..];
        Admit(births(i), views(i));
        var o := outcome(i);
        if o.Interrupted? {
          assert Consumed(rest, outcome, i) == 1;
          break;
        }
        if o == Returned(true) {
          scheduler.Call(c, views(i));
        }
        i := i + 1;
      }
    }

    /** The announcements of one run reach call, in order. */
    method Admit(cs: seq<object>, view: TaskView)
      modifies scheduler
      ensures scheduler.Snap() == SubmitAll(old(scheduler.Snap()), cs, view)
    {
      var k := 0;
      while k < |cs|
        invariant k <= |cs|
        invariant SubmitAll(old(scheduler.Snap()), cs, view) == SubmitAll(scheduler.Snap(), cs[k..], view)
      {
        assert cs[k..][1..] == cs[k + 1..];
        scheduler.Call(cs[k], view);
        k := k + 1;
      }
    }

    /**
     * One iteration of run(): drain the queue, then ask the scheduler for
     * more work with slice(this), judged by the task view `view` of that
     * moment.
     */
    method RunOnce(outcome: nat -> Outcome, births: nat -> seq<object>, views: nat -> TaskView,
                   view: TaskView, lockFree: bool) returns (hung: bool)
      modifies this, scheduler, set w | w in scheduler.idleThreads
      ensures var mid := Fed(old(scheduler.Snap()), old(tasks), outcome, births, views, 0);
        var h := SchedulingSpec.Slice(mid, this, view, lockFree);
        scheduler.Snap() == h.after && hung == h.last.Spins? &&
        tasks == old(tasks)[Consumed(old(tasks), outcome, 0)..] + Inbox(this, h.to, h.handed) +
                 (if h.last.Got? then [h.last.task] else []) &&
        forall w :: w in old(scheduler.idleThreads) && w != this ==> w.tasks == old(w.tasks) + Inbox(w, h.to, h.handed)
    {
      Drain(outcome, births, views);
      FedFrame(old(scheduler.Snap()), old(tasks), outcome, births, views, 0);
      hung := scheduler.Slice(this, view, lockFree);
    }
  }
}
