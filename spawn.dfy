/**
 * SpawnBehaviour: a creep spawner's timer. It alternates between a spawning
 * phase, during which it asks the creep builder for one creep per spawn
 * interval, and an idle lull. Its signal holds the time of the last state
 * change as its value and the time of the last spawn as its time stamp.
 */
module Spawn {
  import opened Base
  import opened Events
  import opened Signals
  import opened Behaviours

  datatype State = Spawning | Idle

  /** The timer: the state, the last state change (the signal's value) and the last spawn (the signal's time stamp). */
  datatype Timer = Timer(state: State, changed: int, stamp: int)

  /** One pass of the inner loop: the time stamp it ends on and the spawn times, in order. */
  datatype Volley = Volley(stamp: int, times: seq<int>)

  /**
   * The inner loop of the SPAWNING case: while a whole interval separates
   * `stamp` from `now`, one creep is asked for, stamped one interval later;
   * the loop stops early once the spawning phase has lasted `duration`.
   */
  function Burst(now: int, changed: int, stamp: int, interval: int, duration: int): Volley
    requires interval > 0
    decreases now - stamp
  {
    if now - stamp >= interval then
      var s := stamp + interval;
      if s - changed >= duration then Volley(s, [s])
      else
        var v := Burst(now, changed, s, interval, duration);
        Volley(v.stamp, [s] + v.times)
    else Volley(stamp, [])
  }

  /** What one pass of the do/while loop does: the new timer, the spawn times, whether the loop goes round again. */
  datatype Step = Step(timer: Timer, times: seq<int>, again: bool)

  /** One pass of doRun's do/while loop, `now` being the clock reading. */
  function Advance(t: Timer, now: int, interval: int, duration: int, lull: int): Step
    requires interval > 0
  {
    match t.state
    case Idle =>
      if now - t.changed >= lull then Step(Timer(Spawning, t.changed + lull, t.stamp + lull), [], true)
      else Step(t, [], false)
    case Spawning =>
      var v := Burst(now, t.changed, t.stamp, interval, duration);
      if now - t.changed >= duration then Step(Timer(Idle, t.changed + duration, v.stamp), v.times, true)
      else Step(Timer(Spawning, t.changed, v.stamp), v.times, false)
  }

  /** What a whole doRun does: the final timer and every spawn time, in order. */
  datatype Run = Run(timer: Timer, times: seq<int>)

  /**
   * Bounds the number of further passes of doRun's do/while loop. Every pass
   * that goes round again moves the last state change on by a lull or a
   * spawning phase; one of them may be empty, so the phase whose length is
   * zero counts for one extra pass.
   */
  function Fuel(t: Timer, now: int, lull: int): nat
  {
    if now - t.changed >= 0 then 2 * (now - t.changed) + (if (lull == 0) == (t.state == Idle) then 1 else 0) + 1
    else 0
  }

  /** doRun: passes of the do/while loop until one says to stop. */
  function Cycle(t: Timer, now: int, interval: int, duration: int, lull: int): Run
    requires interval > 0 && duration >= 0 && lull >= 0 && duration + lull > 0
    decreases Fuel(t, now, lull)
  {
    var s := Advance(t, now, interval, duration, lull);
    if s.again then
      var r := Cycle(s.timer, now, interval, duration, lull);
      Run(r.timer, s.times + r.times)
    else Run(s.timer, s.times)
  }

  /** One pass of the do/while loop followed by the rest of doRun is doRun; a pass that goes round again burns fuel. */
  lemma CycleUnfold(t: Timer, now: int, interval: int, duration: int, lull: int, before: seq<int>)
    requires interval > 0 && duration >= 0 && lull >= 0 && duration + lull > 0
    ensures var s := Advance(t, now, interval, duration, lull);
      var r := Cycle(t, now, interval, duration, lull);
      (s.again ==> Fuel(s.timer, now, lull) < Fuel(t, now, lull) &&
                   r.timer == Cycle(s.timer, now, interval, duration, lull).timer &&
                   before + r.times == (before + s.times) + Cycle(s.timer, now, interval, duration, lull).times) &&
      (!s.again ==> r == Run(s.timer, s.times))
  {
  }

  /**
   * The spawns of one inner loop come exactly one interval apart, the first
   * one interval after `stamp`, and the time stamp ends on the last of them;
   * no spawn lies beyond `now`, and the loop stops only when less than an
   * interval is left or the spawning phase is over. The value is not
   * touched, so `changed` is the same throughout.
   */
  lemma {:induction false} BurstShape(now: int, changed: int, stamp: int, interval: int, duration: int)
    requires interval > 0
    ensures var v := Burst(now, changed, stamp, interval, duration);
      (v.times == [] ==> v.stamp == stamp) &&
      (v.times != [] ==> v.times[0] == stamp + interval && v.stamp == v.times[|v.times| - 1] && v.stamp <= now) &&
      (forall i :: 0 <= i < |v.times| - 1 ==> v.times[i + 1] == v.times[i] + interval) &&
      (now - v.stamp < interval || (v.times != [] && v.stamp - changed >= duration)) &&
      (forall i :: 0 <= i < |v.times| - 1 ==> v.times[i] - changed < duration)
    decreases now - stamp
  {
    if now - stamp >= interval {
      var s := stamp + interval;
      if s - changed < duration {
        BurstShape(now, changed, s, interval, duration);
        var v := Burst(now, changed, s, interval, duration);
        var all := [s] + v.times;
        forall i | 0 <= i < |all| - 1
          ensures all[i + 1] == all[i] + interval && all[i] - changed < duration
        {
          if i > 0 {
            assert all[i] == v.times[i - 1] && all[i + 1] == v.times[i];
          }
        }
      }
    }
  }

  /** One pass of the inner loop spawns no more creeps than there are whole intervals between `stamp` and `now`. */
  lemma {:induction false} BurstCount(now: int, changed: int, stamp: int, interval: int, duration: int)
    requires interval > 0 && stamp <= now
    ensures |Burst(now, changed, stamp, interval, duration).times| <= (now - stamp) / interval
    decreases now - stamp
  {
    if now - stamp >= interval {
      var s := stamp + interval;
      DivStep(now - s, interval);
      assert now - stamp == (now - s) + interval;
      if s - changed < duration {
        BurstCount(now, changed, s, interval, duration);
      }
    }
  }

  /**
   * doRun catches the timer up with `now`: it stops idle only while less
   * than a lull has passed since the last state change, and spawning only
   * while less than a spawning phase has passed.
   */
  lemma {:induction false} CycleSettles(t: Timer, now: int, interval: int, duration: int, lull: int)
    requires interval > 0 && duration >= 0 && lull >= 0 && duration + lull > 0
    ensures var r := Cycle(t, now, interval, duration, lull);
      (r.timer.state == Idle ==> now - r.timer.changed < lull) &&
      (r.timer.state == Spawning ==> now - r.timer.changed < duration)
    decreases Fuel(t, now, lull)
  {
    var s := Advance(t, now, interval, duration, lull);
    if s.again {
      CycleSettles(s.timer, now, interval, duration, lull);
    }
  }

  /**
   * The spawns of one doRun are stamped in strictly increasing order, each
   * after the time stamp the run started from and none after `now` unless
   * the idle case moved the stamp past it; the time stamp ends at or after
   * the last of them.
   */
  lemma {:induction false} CycleTimes(t: Timer, now: int, interval: int, duration: int, lull: int)
    requires interval > 0 && duration >= 0 && lull >= 0 && duration + lull > 0
    ensures var r := Cycle(t, now, interval, duration, lull);
      (forall i, j :: 0 <= i < j < |r.times| ==> r.times[i] < r.times[j]) &&
      (forall i :: 0 <= i < |r.times| ==> t.stamp < r.times[i] <= r.timer.stamp) &&
      t.stamp <= r.timer.stamp
    decreases Fuel(t, now, lull)
  {
    var s := Advance(t, now, interval, duration, lull);
    if t.state == Spawning {
      BurstRises(now, t.changed, t.stamp, interval, duration);
    }
    if s.again {
      CycleTimes(s.timer, now, interval, duration, lull);
      var r := Cycle(s.timer, now, interval, duration, lull);
      var all := s.times + r.times;
      forall i, j | 0 <= i < j < |all|
        ensures all[i] < all[j]
      {
        if j < |s.times| {
        } else if i < |s.times| {
          assert all[j] == r.times[j - |s.times|];
        } else {
          assert all[i] == r.times[i - |s.times|] && all[j] == r.times[j - |s.times|];
        }
      }
      forall i | 0 <= i < |all|
        ensures t.stamp < all[i] <= r.timer.stamp
      {
        if i >= |s.times| {
          assert all[i] == r.times[i - |s.times|];
        }
      }
    }
  }

  /** The spawns of one inner loop rise strictly, all after `stamp` and none after where the time stamp ends. */
  lemma BurstRises(now: int, changed: int, stamp: int, interval: int, duration: int)
    requires interval > 0
    ensures var v := Burst(now, changed, stamp, interval, duration);
      (forall i, j :: 0 <= i < j < |v.times| ==> v.times[i] < v.times[j]) &&
      (forall i :: 0 <= i < |v.times| ==> stamp < v.times[i] <= v.stamp) &&
      stamp <= v.stamp
  {
    BurstShape(now, changed, stamp, interval, duration);
    var v := Burst(now, changed, stamp, interval, duration);
    Ladder(v.times, interval);
  }

  /** A sequence climbing by a positive step each time rises strictly. */
  lemma {:induction false} Ladder(s: seq<int>, step: int)
    requires step > 0 && forall i :: 0 <= i < |s| - 1 ==> s[i + 1] == s[i] + step
    ensures forall i, j :: 0 <= i < j < |s| ==> s[i] < s[j]
  {
    if |s| > 1 {
      Ladder(s[1..], step);
      forall i, j | 0 <= i < j < |s|
        ensures s[i] < s[j]
      {
        if i > 0 {
          assert s[i] == s[1..][i - 1] && s[j] == s[1..][j - 1];
        } else if j > 1 {
          assert s[j] == s[1..][j - 1] && s[1] == s[1..][0];
        }
      }
    }
  }

  /** The events asking for the creeps spawned at `times`, in order. */
  function Requests(self: object, position: Vector2, route: seq<CheckPoint>, times: seq<int>): (r: seq<Event>)
    ensures |r| == |times|
    ensures forall i :: 0 <= i < |times| ==> r[i] == Event(self, CreepSpawn(position, route), Broadcast, times[i])
  {
    if times == [] then [] else Requests(self, position, route, times[..|times| - 1]) + [Event(self, CreepSpawn(position, route), Broadcast, times[|times| - 1])]
  }

  lemma RequestsAppend(self: object, position: Vector2, route: seq<CheckPoint>, a: seq<int>, b: seq<int>)
    ensures Requests(self, position, route, a + b) == Requests(self, position, route, a) + Requests(self, position, route, b)
  {
  }

  /** What is left of the burst `V` after the spawns `done`: the burst from `stamp` on. */
  ghost predicate Remains(V: Volley, done: seq<int>, now: int, changed: int, stamp: int, interval: int, duration: int)
    requires interval > 0
  {
    var rest := Burst(now, changed, stamp, interval, duration);
    V.stamp == rest.stamp && V.times == done + rest.times
  }

  /** One spawn of the inner loop, in terms of Burst: either the phase is over or the rest of the burst starts one interval on. */
  lemma BurstStep(V: Volley, done: seq<int>, now: int, changed: int, stamp: int, interval: int, duration: int)
    requires interval > 0 && now - stamp >= interval
    requires Remains(V, done, now, changed, stamp, interval, duration)
    ensures var s := stamp + interval;
      if s - changed >= duration then V == Volley(s, done + [s])
      else Remains(V, done + [s], now, changed, s, interval, duration)
  {
    var s := stamp + interval;
    if s - changed < duration {
      var v := Burst(now, changed, s, interval, duration);
      assert done + ([s] + v.times) == (done + [s]) + v.times;
    }
  }

  /** Once less than an interval is left, the burst is over. */
  lemma BurstEnd(V: Volley, done: seq<int>, now: int, changed: int, stamp: int, interval: int, duration: int)
    requires interval > 0 && now - stamp < interval
    requires Remains(V, done, now, changed, stamp, interval, duration)
    ensures V == Volley(stamp, done)
  {
    assert done + [] == done;
  }

  /** Every mailbox of `audience` holds what it held at `base` followed by the requests for the spawns at `times`. */
  ghost predicate Heard(audience: set<Mailbox>, base: map<Mailbox, seq<Event>>, self: object,
                        position: Vector2, route: seq<CheckPoint>, times: seq<int>)
    reads audience
  {
    forall m :: m in audience ==> m in base && m.events == base[m] + Requests(self, position, route, times)
  }

  class SpawnBehaviour {
    const core: Behaviour
    const position: Signal
    const checkpoints: Signal
    const spawnDuration: Signal
    const spawnInterval: Signal
    const lullDuration: Signal
    const creepBuilder: Sink
    var state: State

    /**
     * SpawnBehaviour(lastStateChange, position, checkpoints, spawnDuration,
     * spawnInterval, lullDuration, creepBuilder): a new spawner is spawning,
     * and its signal holds the clock reading as both value and time stamp.
     */
    constructor (lastStateChange: Signal, position: Signal, checkpoints: Signal, spawnDuration: Signal,
                 spawnInterval: Signal, lullDuration: Signal, creepBuilder: Sink, now: int)
      modifies lastStateChange
      ensures fresh(core) && fresh(core.mailbox) && core.signal == lastStateChange && core.inputs == []
      ensures this.position == position && this.checkpoints == checkpoints && this.creepBuilder == creepBuilder
      ensures this.spawnDuration == spawnDuration && this.spawnInterval == spawnInterval && this.lullDuration == lullDuration
      ensures state == Spawning
      ensures lastStateChange.Read() == LongValue(now) && lastStateChange.TimeStamp() == now
    {
      core := new Behaviour("SpawnBehaviour", lastStateChange, now);
      this.position := position;
      this.checkpoints := checkpoints;
      this.spawnDuration := spawnDuration;
      this.spawnInterval := spawnInterval;
      this.lullDuration := lullDuration;
      this.creepBuilder := creepBuilder;
      state := Spawning;
      new;
      lastStateChange.Write(LongValue(now), now);
    }

    /** The timer as the fields and the signal hold it. */
    ghost function Clock(): Timer
      reads this, core, core.signal
      requires core.signal.Read().LongValue?
    {
      Timer(state, core.signal.Read().n, core.signal.TimeStamp())
    }

    /**
     * doRun, with `now` the clock reading and `interval`, `duration` and
     * `lull` the spawn interval, spawning phase and lull in nanoseconds: the
     * timer moves as Cycle says and the creep builder hears one request per
     * spawn, in order, carrying the spawner's position and route.
     */
    method DoRun(interval: int, duration: int, lull: int, now: int) returns (r: bool)
      requires interval > 0 && duration >= 0 && lull >= 0 && duration + lull > 0
      requires core.signal.Read().LongValue? && position.Read().VectorValue? && checkpoints.Read().CheckPointsValue?
      requires core.signal != position && core.signal != checkpoints
      modifies this, core.signal, Reach(creepBuilder)
      ensures r
      ensures Reach(creepBuilder) == old(Reach(creepBuilder))
      ensures core.signal.Read().LongValue?
      ensures var R := Cycle(old(Clock()), now, interval, duration, lull);
        Clock() == R.timer &&
        forall m :: m in Reach(creepBuilder) ==>
          m.events == old(m.events) + Requests(this, position.Read().v, checkpoints.Read().cps, R.times)
    {
      ghost var R := Cycle(Clock(), now, interval, duration, lull);
      ghost var audience := Reach(creepBuilder);
      ghost var base := map m | m in audience :: m.events;
      ghost var pos := position.Read().v;
      ghost var route := checkpoints.Read().cps;
      ghost var times: seq<int> := [];
      var again := true;
      while again
        invariant core.signal.Read().LongValue? && Reach(creepBuilder) == audience
        invariant position.Read() == old(position.Read()) && checkpoints.Read() == old(checkpoints.Read())
        invariant again ==> R.timer == Cycle(Clock(), now, interval, duration, lull).timer &&
                            R.times == times + Cycle(Clock(), now, interval, duration, lull).times
        invariant !again ==> R == Run(Clock(), times)
        invariant Heard(audience, base, this, pos, route, times)
        decreases if again then Fuel(Clock(), now, lull) + 1 else 0
      {
        ghost var c := Clock();
        ghost var s := Advance(c, now, interval, duration, lull);
        again := Pass(interval, duration, lull, now, audience, base, pos, route, times);
        CycleUnfold(c, now, interval, duration, lull, times);
        times := times + s.times;
      }
      return true;
    }

    /** One pass of doRun's do/while loop, as Advance says. */
    method Pass(interval: int, duration: int, lull: int, now: int, ghost audience: set<Mailbox>,
                ghost base: map<Mailbox, seq<Event>>, ghost pos: Vector2, ghost route: seq<CheckPoint>, ghost sent: seq<int>)
      returns (again: bool)
      requires interval > 0
      requires core.signal.Read().LongValue? && position.Read() == VectorValue(pos) && checkpoints.Read() == CheckPointsValue(route)
      requires core.signal != position && core.signal != checkpoints
      requires audience == Reach(creepBuilder)
      requires Heard(audience, base, this, pos, route, sent)
      modifies this, core.signal, audience
      ensures Reach(creepBuilder) == audience && core.signal.Read().LongValue?
      ensures position.Read() == old(position.Read()) && checkpoints.Read() == old(checkpoints.Read())
      ensures var s := Advance(old(Clock()), now, interval, duration, lull);
        Clock() == s.timer && again == s.again && Heard(audience, base, this, pos, route, sent + s.times)
    {
      var changed := core.signal.Read().n;
      var delta := now - changed;
      match state {
        case Idle =>
          if delta >= lull {
            state := Spawning;
            again := true;
            Mark(changed + lull, core.signal.TimeStamp() + lull, audience);
          } else {
            again := false;
            assert sent + [] == sent;
          }
        case Spawning =>
          Fire(interval, duration, now, audience, base, pos, route, sent);
          if delta >= duration {
            state := Idle;
            again := true;
            Mark(changed + duration, core.signal.TimeStamp(), audience);
          } else {
            again := false;
          }
      }
    }

    /** The signal is written; no mailbox and no stream changes. */
    method Mark(changed: int, stamp: int, ghost audience: set<Mailbox>)
      requires core.signal != position && core.signal != checkpoints
      requires audience == Reach(creepBuilder)
      modifies core.signal
      ensures core.signal.Read() == LongValue(changed) && core.signal.TimeStamp() == stamp
      ensures Reach(creepBuilder) == audience
      ensures position.Read() == old(position.Read()) && checkpoints.Read() == old(checkpoints.Read())
      ensures forall m :: m in audience ==> m.events == old(m.events)
    {
      core.signal.Write(LongValue(changed), stamp);
    }

    /**
     * The inner loop of the SPAWNING case: the time stamp moves on one
     * interval per spawn and each spawn is announced to the creep builder
     * with the new time stamp, as Burst says; the spawns already announced in
     * this run, `sent`, stay in front.
     */
    method Fire(interval: int, duration: int, now: int, ghost audience: set<Mailbox>,
                ghost base: map<Mailbox, seq<Event>>, ghost pos: Vector2, ghost route: seq<CheckPoint>, ghost sent: seq<int>)
      requires interval > 0
      requires core.signal.Read().LongValue? && position.Read() == VectorValue(pos) && checkpoints.Read() == CheckPointsValue(route)
      requires core.signal != position && core.signal != checkpoints
      requires audience == Reach(creepBuilder)
      requires Heard(audience, base, this, pos, route, sent)
      modifies core.signal, audience
      ensures Reach(creepBuilder) == audience
      ensures position.Read() == old(position.Read()) && checkpoints.Read() == old(checkpoints.Read())
      ensures var v := Burst(now, old(core.signal.Read()).n, old(core.signal.TimeStamp()), interval, duration);
        core.signal.Read() == old(core.signal.Read()) && core.signal.TimeStamp() == v.stamp &&
        Heard(audience, base, this, pos, route, sent + v.times)
    {
      var changed := core.signal.Read().n;
      ghost var V := Burst(now, old(core.signal.Read()).n, old(core.signal.TimeStamp()), interval, duration);
      ghost var done: seq<int> := [];
      ghost var heard := sent;
      var delta := now - core.signal.TimeStamp();
      var finished := false;
      assert sent + [] == sent && [] + V.times == V.times;
      while delta >= interval && !finished
        invariant delta == now - core.signal.TimeStamp()
        invariant core.signal.Read() == old(core.signal.Read()) && Reach(creepBuilder) == audience
        invariant position.Read() == old(position.Read()) && checkpoints.Read() == old(checkpoints.Read())
        invariant !finished ==> Remains(V, done, now, changed, core.signal.TimeStamp(), interval, duration)
        invariant finished ==> V == Volley(core.signal.TimeStamp(), done)
        invariant heard == sent + done && Heard(audience, base, this, pos, route, heard)
        decreases delta
      {
        BurstStep(V, done, now, changed, core.signal.TimeStamp(), interval, duration);
        Request(interval, audience, base, pos, route, heard);
        heard := heard + [core.signal.TimeStamp()];
        done := done + [core.signal.TimeStamp()];
        delta := delta - interval;
        finished := core.signal.TimeStamp() - changed >= duration;
      }
      if !finished {
        BurstEnd(V, done, now, changed, core.signal.TimeStamp(), interval, duration);
      }
    }

    /** One spawn: the time stamp moves on by `interval` and the creep builder hears a request stamped with it. */
    method Request(interval: int, ghost audience: set<Mailbox>, ghost base: map<Mailbox, seq<Event>>,
                   ghost pos: Vector2, ghost route: seq<CheckPoint>, ghost sent: seq<int>)
      requires core.signal.Read().LongValue? && position.Read() == VectorValue(pos) && checkpoints.Read() == CheckPointsValue(route)
      requires core.signal != position && core.signal != checkpoints
      requires audience == Reach(creepBuilder)
      requires Heard(audience, base, this, pos, route, sent)
      modifies core.signal, audience
      ensures Reach(creepBuilder) == audience
      ensures position.Read() == old(position.Read()) && checkpoints.Read() == old(checkpoints.Read())
      ensures core.signal.Read() == old(core.signal.Read()) && core.signal.TimeStamp() == old(core.signal.TimeStamp()) + interval
      ensures Heard(audience, base, this, pos, route, sent + [core.signal.TimeStamp()])
    {
      core.signal.Write(core.signal.Read(), core.signal.TimeStamp() + interval);
      var e := Event(this, CreepSpawn(position.Read().v, checkpoints.Read().cps), Broadcast, core.signal.TimeStamp());
      Deliver(creepBuilder, e);
      RequestsAppend(this, pos, route, sent, [e.time]);
    }
  }
}
