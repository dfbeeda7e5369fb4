/**
 * AttackBehaviour: a tower's gun. The time stamp of its signal is the time of
 * the last shot; on each run the tower fires at the first creep in range as
 * many times as the time since then allows, one shot per period.
 */
module Attack {
  import opened Base
  import opened Events
  import opened Signals
  import opened Behaviours

  /** The index of the first pipe of `l` that `near` says is in range. */
  function FirstNear(l: seq<Pipe>, near: Pipe -> bool): (r: Option<nat>)
    ensures r.None? ==> forall i :: 0 <= i < |l| ==> !near(l[i])
    ensures r.Some? ==> r.value < |l| && near(l[r.value]) && forall i :: 0 <= i < r.value ==> !near(l[i])
  {
    if l == [] then None
    else if near(l[0]) then Some(0)
    else match FirstNear(l[1..], near) {
      case None => None
      case Some(i) => Some(i + 1)
    }
  }

  /** How many shots a run at `now` fires when the last shot was at `last`, one every `period` nanoseconds. */
  function Shots(now: int, last: int, period: int): nat
    requires period > 0
    decreases now - last
  {
    if now - last > period then 1 + Shots(now, last + period, period) else 0
  }

  /** One more shot: the gun moves one period on and one shot fewer is left. */
  lemma ShotsStep(now: int, last: int, stamp: int, period: int, shots: nat)
    requires period > 0 && now - stamp > period
    requires stamp == last + shots * period && Shots(now, last, period) == shots + Shots(now, stamp, period)
    ensures stamp + period == last + (shots + 1) * period
    ensures Shots(now, last, period) == (shots + 1) + Shots(now, stamp + period, period)
  {
  }

  /** After the shots the gun is less than one period behind `now`. */
  lemma {:induction false} ShotsCatchUp(now: int, last: int, period: int)
    requires period > 0
    ensures now - (last + Shots(now, last, period) * period) <= period
    decreases now - last
  {
    if now - last > period {
      ShotsCatchUp(now, last + period, period);
    }
  }

  /** The number of shots in closed form: one per whole period elapsed, the last partial period excepted. */
  lemma {:induction false} ShotsCount(now: int, last: int, period: int)
    requires period > 0
    ensures Shots(now, last, period) == if now - last > 0 then (now - last - 1) / period else 0
    decreases now - last
  {
    if now - last > period {
      ShotsCount(now, last + period, period);
      DivStep(now - last - period - 1, period);
    } else if now - last > 0 {
      assert 0 <= now - last - 1 < period;
    }
  }

  class AttackBehaviour {
    const core: Behaviour
    const targets: Signal
    const position: Signal
    const fireRate: Signal
    const damage: Signal
    const range: Signal

    /**
     * AttackBehaviour(signal, targets, position, fireRate, damage, range):
     * no inputs are declared, and the signal is stamped one period in the
     * past so that the first run may fire at once. `period` is the
     * nanoseconds per shot the fire rate gives.
     */
    constructor (signal: Signal, targets: Signal, position: Signal, fireRate: Signal, damage: Signal, range: Signal,
                 period: int, now: int)
      modifies signal
      ensures fresh(core) && fresh(core.mailbox) && core.signal == signal && core.inputs == [] && core.mailbox.events == []
      ensures this.targets == targets && this.position == position && this.fireRate == fireRate
      ensures this.damage == damage && this.range == range
      ensures signal.Read() == BoolValue(false) && signal.TimeStamp() == now - period
      ensures core.Ready()
    {
      core := new Behaviour("AttackBehaviour", signal, now);
      this.targets := targets;
      this.position := position;
      this.fireRate := fireRate;
      this.damage := damage;
      this.range := range;
      new;
      signal.Write(BoolValue(false), now - period);
    }

    /** The sink of the first target in range, if any. */
    ghost function Victim(near: Pipe -> bool): Option<Sink>
      reads targets
      requires targets.Read().PipesValue?
    {
      var l := targets.Read().pipes;
      match FirstNear(l, near) {
        case None => None
        case Some(i) => Some(l[i].sink)
      }
    }

    /** The mailboxes the shots may reach: those of every target's sink. */
    ghost function Struck(near: Pipe -> bool): set<Mailbox>
      reads targets
      reads if targets.Read().PipesValue? then (set p | p in targets.Read().pipes && p.sink.ToStream? :: p.sink.stream) else {}
    {
      if targets.Read().PipesValue? then
        match Victim(near) {
          case None => {}
          case Some(sink) => Reach(sink)
        }
      else {}
    }

    /**
     * doRun, with `near` the distance test against this tower's position and
     * range, `period` the nanoseconds per shot and `now` the clock reading:
     * every shot goes to the first target in range and advances the time
     * stamp by one period; with no target in range the stamp is moved up to
     * one period before `now`.
     */
    method DoRun(near: Pipe -> bool, period: int, now: int) returns (r: bool)
      requires targets.Read().PipesValue? && damage.Read().FloatValue? && period > 0
      requires core.signal != targets && core.signal != damage
      modifies core.signal, Struck(near)
      ensures r
      ensures Struck(near) == old(Struck(near))
      ensures var last := old(core.signal.TimeStamp());
        var shot := Event(this, Damage(damage.Read().x), Targetted, now);
        match Victim(near)
        case Some(sink) =>
          var n := Shots(now, last, period);
          core.signal.TimeStamp() == last + n * period &&
          core.signal.Read() == (if n > 0 then BoolValue(true) else old(core.signal.Read())) &&
          forall m :: m in Reach(sink) ==> m.events == old(m.events) + Repeat(shot, n)
        case None =>
          if now - last > period then core.signal.Read() == BoolValue(true) && core.signal.TimeStamp() == now - period
          else core.signal.Read() == old(core.signal.Read()) && core.signal.TimeStamp() == last
    {
      var l := targets.Read().pipes;
      ghost var hit := FirstNear(l, near);
      ghost var target := Victim(near);
      ghost var victims := Struck(near);
      assert target == (if hit.Some? then Some(l[hit.value].sink) else None);
      assert target.Some? ==> victims == Reach(target.value);
      var shot := Event(this, Damage(damage.Read().x), Targetted, now);
      Volley(l, near, period, now, shot, victims);
      assert Victim(near) == target && Struck(near) == victims;
      return true;
    }

    /**
     * The loop of doRun over the target list `l`: one shot at the first
     * target in range per whole period behind `now`; with no target in
     * range the stamp is moved up to one period before `now`.
     */
    method Volley(l: seq<Pipe>, near: Pipe -> bool, period: int, now: int, shot: Event, ghost victims: set<Mailbox>)
      requires period > 0
      requires var hit := FirstNear(l, near);
        if hit.Some? then victims == Reach(l[hit.value].sink) else victims == {}
      modifies core.signal, victims
      ensures var last := old(core.signal.TimeStamp());
        match FirstNear(l, near)
        case Some(_) =>
          var n := Shots(now, last, period);
          core.signal.TimeStamp() == last + n * period &&
          core.signal.Read() == (if n > 0 then BoolValue(true) else old(core.signal.Read())) &&
          forall m :: m in victims ==> m.events == old(m.events) + Repeat(shot, n)
        case None =>
          if now - last > period then core.signal.Read() == BoolValue(true) && core.signal.TimeStamp() == now - period
          else core.signal.Read() == old(core.signal.Read()) && core.signal.TimeStamp() == last
    {
      ghost var last := core.signal.TimeStamp();
      ghost var hit := FirstNear(l, near);
      ghost var shots: nat := 0;
      ghost var base := map m | m in victims :: m.events;
      var fired := true;
      while fired && now - core.signal.TimeStamp() > period
        invariant core.signal.TimeStamp() == last + shots * period
        invariant Shots(now, last, period) == shots + Shots(now, core.signal.TimeStamp(), period)
        invariant shots > 0 ==> hit.Some? && core.signal.Read() == BoolValue(true)
        invariant shots == 0 ==> core.signal.Read() == old(core.signal.Read())
        invariant !fired ==> hit.None? && shots == 0 && now - last > period
        invariant hit.Some? ==> Reach(l[hit.value].sink) == victims
        invariant forall m :: m in victims ==> m in base && m.events == base[m] + Repeat(shot, shots)
        decreases now - core.signal.TimeStamp() + (if fired then 1 else 0)
      {
        fired := false;
        var i := FirstInRange(l, near);
        if i.Some? {
          ghost var stamp := core.signal.TimeStamp();
          ShotsStep(now, last, stamp, period, shots);
          Shoot(l[i.value].sink, shot, period, base, shots);
          assert core.signal.TimeStamp() == stamp + period;
          shots := shots + 1;
          fired := true;
        }
      }
      if !fired {
        core.signal.Write(BoolValue(true), now - period);
      }
    }

    /** One shot of doRun: the time stamp moves on one period and the target's mailboxes get `shot` once more. */
    method Shoot(sink: Sink, shot: Event, period: int, ghost base: map<Mailbox, seq<Event>>, ghost shots: nat)
      requires forall m :: m in Reach(sink) ==> m in base && m.events == base[m] + Repeat(shot, shots)
      modifies core.signal, Reach(sink)
      ensures Reach(sink) == old(Reach(sink))
      ensures core.signal.Read() == BoolValue(true) && core.signal.TimeStamp() == old(core.signal.TimeStamp()) + period
      ensures forall m :: m in Reach(sink) ==> m.events == base[m] + Repeat(shot, shots + 1)
    {
      core.signal.Write(BoolValue(true), core.signal.TimeStamp() + period);
      Deliver(sink, shot);
      RepeatAppend(shot, shots);
    }

    /** call: the start and end times bracket doRun, whose answer it returns. */
    method Call(near: Pipe -> bool, period: int, start: int, now: int, end: int) returns (r: bool)
      requires targets.Read().PipesValue? && damage.Read().FloatValue? && period > 0
      requires core.signal != targets && core.signal != damage
      modifies core, core.signal, Struck(near)
      ensures r
      ensures core.lastStartTime == start && core.LastRunTime() == end - start
      ensures now - core.signal.TimeStamp() <= period
    {
      core.BeginRun(start);
      ghost var last := core.signal.TimeStamp();
      ShotsCatchUp(now, last, period);
      r := DoRun(near, period, now);
      core.EndRun(end);
    }
  }

  /** The inner loop of doRun: the targets are tried in order and the first in range is taken. */
  method FirstInRange(l: seq<Pipe>, near: Pipe -> bool) returns (r: Option<nat>)
    ensures r == FirstNear(l, near)
  {
    var i := 0;
    while i < |l|
      invariant 0 <= i <= |l|
      invariant forall j :: 0 <= j < i ==> !near(l[j])
    {
      if near(l[i]) {
        FirstNearIs(l, near, i);
        return Some(i);
      }
      i := i + 1;
    }
    FirstNearNone(l, near);
    return None;
  }

  lemma FirstNearIs(l: seq<Pipe>, near: Pipe -> bool, i: nat)
    requires i < |l| && near(l[i]) && forall j :: 0 <= j < i ==> !near(l[j])
    ensures FirstNear(l, near) == Some(i)
  {
  }

  lemma FirstNearNone(l: seq<Pipe>, near: Pipe -> bool)
    requires forall j :: 0 <= j < |l| ==> !near(l[j])
    ensures FirstNear(l, near) == None
  {
  }
}
