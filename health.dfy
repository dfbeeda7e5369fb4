/**
 * HealthBehaviour: a creep's hit points. Damage events lower the hit points
 * held in its signal; a lethal hit broadcasts DEATH on the creep's stream,
 * which the behaviour itself is subscribed to, so the DEATH comes back to its
 * own mailbox and ends the run, after the controller has been told.
 */
module Health {
  import opened Base
  import opened Events
  import opened Signals
  import opened Behaviours

  /** What one doRun does: the final hit points and time stamp of the signal, what is left in the mailbox, the DEATHs broadcast, the report to the controller, the answer. */
  datatype Run = Run(hp: real, stamp: int, rest: seq<Event>, deaths: seq<Event>, report: Option<Event>, result: bool)

  /** How many damage events `q` holds. */
  function Damages(q: seq<Event>): (n: nat)
    ensures n <= |q|
  {
    if q == [] then 0 else (if q[0].value.Damage? then 1 else 0) + Damages(q[1..])
  }

  lemma {:induction false} DamagesAppend(q: seq<Event>, d: Event)
    requires !d.value.Damage?
    ensures Damages(q + [d]) == Damages(q)
  {
    if q != [] {
      assert (q + [d])[1..] == q[1..] + [d];
      DamagesAppend(q[1..], d);
    }
  }

  /** The DEATH a lethal hit from `e` broadcasts. */
  function Obituary(self: object, e: Event): Event
  {
    Event(self, Generic(Death), Broadcast, e.time)
  }

  /**
   * doRun over the mailbox `q`, the signal holding `hp` stamped `stamp`:
   * `echo` says whether the behaviour's mailbox is subscribed to the creep
   * stream, so that each DEATH it broadcasts joins the tail of `q`; `deaths`
   * accumulates the broadcasts.
   */
  function Drain(hp: real, stamp: int, q: seq<Event>, echo: bool, self: object, stream: object,
                 now: int, deaths: seq<Event>): Run
    decreases |q| + Damages(q)
  {
    if q == [] then Run(hp, stamp, [], deaths, None, true)
    else
      var e := q[0];
      if e.value == Generic(Death) then
        Run(hp, stamp, q[1..], deaths, Some(Event(stream, Generic(Death), Targetted, now)), false)
      else if e.value.Damage? then
        var h := hp - e.value.amount;
        if h <= 0.0 then
          var d := Obituary(self, e);
          DamagesAppend(q[1..], d);
          Drain(0.0, now, (if echo then q[1..] + [d] else q[1..]), echo, self, stream, now, deaths + [d])
        else
          Drain(h, now, q[1..], echo, self, stream, now, deaths)
      else
        Drain(hp, stamp, q[1..], echo, self, stream, now, deaths)
  }

  /** The run answers true exactly when it drains the mailbox without meeting a DEATH, and only a DEATH is reported to the controller. */
  lemma {:induction false} DrainOutcome(hp: real, stamp: int, q: seq<Event>, echo: bool, self: object,
                                        stream: object, now: int, deaths: seq<Event>)
    ensures var r := Drain(hp, stamp, q, echo, self, stream, now, deaths);
      (r.result <==> r.report == None) && (r.result ==> r.rest == []) &&
      (r.report == None || r.report == Some(Event(stream, Generic(Death), Targetted, now))) &&
      |deaths| <= |r.deaths| && r.deaths[..|deaths|] == deaths
    decreases |q| + Damages(q)
  {
    if q != [] {
      var e := q[0];
      if e.value == Generic(Death) {
      } else if e.value.Damage? {
        var h := hp - e.value.amount;
        if h <= 0.0 {
          var d := Obituary(self, e);
          DamagesAppend(q[1..], d);
          DrainOutcome(0.0, now, (if echo then q[1..] + [d] else q[1..]), echo, self, stream, now, deaths + [d]);
          var r := Drain(0.0, now, (if echo then q[1..] + [d] else q[1..]), echo, self, stream, now, deaths + [d]);
          assert r.deaths[..|deaths|] == (r.deaths[..|deaths| + 1])[..|deaths|];
        } else {
          DrainOutcome(h, now, q[1..], echo, self, stream, now, deaths);
        }
      } else {
        DrainOutcome(hp, stamp, q[1..], echo, self, stream, now, deaths);
      }
    }
  }

  /** Hit points that start non-negative stay non-negative: a lethal hit writes 0, never less. */
  lemma {:induction false} DrainNeverNegative(hp: real, stamp: int, q: seq<Event>, echo: bool, self: object,
                                              stream: object, now: int, deaths: seq<Event>)
    requires hp >= 0.0
    ensures Drain(hp, stamp, q, echo, self, stream, now, deaths).hp >= 0.0
    decreases |q| + Damages(q)
  {
    if q != [] {
      var e := q[0];
      if e.value == Generic(Death) {
      } else if e.value.Damage? {
        var h := hp - e.value.amount;
        if h <= 0.0 {
          var d := Obituary(self, e);
          DamagesAppend(q[1..], d);
          DrainNeverNegative(0.0, now, (if echo then q[1..] + [d] else q[1..]), echo, self, stream, now, deaths + [d]);
        } else {
          DrainNeverNegative(h, now, q[1..], echo, self, stream, now, deaths);
        }
      } else {
        DrainNeverNegative(hp, stamp, q[1..], echo, self, stream, now, deaths);
      }
    }
  }

  /** A mailbox holding a DEATH anywhere ends the run with false. */
  lemma {:induction false} DeathEndsRun(hp: real, stamp: int, q: seq<Event>, echo: bool, self: object,
                                        stream: object, now: int, deaths: seq<Event>, k: nat)
    requires k < |q| && IsDeath(q[k])
    ensures !Drain(hp, stamp, q, echo, self, stream, now, deaths).result
    decreases |q| + Damages(q)
  {
    var e := q[0];
    if e.value == Generic(Death) {
    } else if e.value.Damage? {
      var h := hp - e.value.amount;
      if h <= 0.0 {
        var d := Obituary(self, e);
        DamagesAppend(q[1..], d);
        var q' := (if echo then q[1..] + [d] else q[1..]);
        assert q'[k - 1] == q[k];
        DeathEndsRun(0.0, now, q', echo, self, stream, now, deaths + [d], k - 1);
      } else {
        DeathEndsRun(h, now, q[1..], echo, self, stream, now, deaths, k - 1);
      }
    } else {
      DeathEndsRun(hp, stamp, q[1..], echo, self, stream, now, deaths, k - 1);
    }
  }

  /**
   * A subscribed behaviour dies in the run that kills it: once it has
   * broadcast a DEATH, its own copy of that DEATH ends the run with false.
   */
  lemma {:induction false} LethalHitEndsRun(hp: real, stamp: int, q: seq<Event>, self: object,
                                            stream: object, now: int, deaths: seq<Event>)
    requires |Drain(hp, stamp, q, true, self, stream, now, deaths).deaths| > |deaths|
    ensures !Drain(hp, stamp, q, true, self, stream, now, deaths).result
    decreases |q| + Damages(q)
  {
    var e := q[0];
    if e.value == Generic(Death) {
    } else if e.value.Damage? {
      var h := hp - e.value.amount;
      if h <= 0.0 {
        var d := Obituary(self, e);
        DamagesAppend(q[1..], d);
        var q' := q[1..] + [d];
        assert IsDeath(q'[|q'| - 1]);
        DeathEndsRun(0.0, now, q', true, self, stream, now, deaths + [d], |q'| - 1);
      } else {
        LethalHitEndsRun(h, now, q[1..], self, stream, now, deaths);
      }
    } else {
      LethalHitEndsRun(hp, stamp, q[1..], self, stream, now, deaths);
    }
  }

  class HealthBehaviour {
    const core: Behaviour
    const creepStream: Stream
    const controller: Sink

    /** HealthBehaviour(signal, creepStream, controller): the behaviour subscribes itself to the creep stream. */
    constructor (signal: Signal, creepStream: Stream, controller: Sink, now: int)
      modifies creepStream
      ensures this.creepStream == creepStream && this.controller == controller
      ensures fresh(core) && fresh(core.mailbox) && core.signal == signal && core.inputs == []
      ensures core.mailbox.events == []
      ensures creepStream.sinks == old(creepStream.sinks) + {core.mailbox}
    {
      core := new Behaviour("HealthBehaviour", signal, now);
      this.creepStream := creepStream;
      this.controller := controller;
      new;
      creepStream.AddSink(core.mailbox);
    }

    /** isReady: a health behaviour has work exactly when its mailbox is not empty. */
    predicate IsReady()
      reads core, core.mailbox
    {
      core.mailbox.events != []
    }

    /**
     * doRun, with `now` the clock reading of the run: the mailbox is
     * drained as Drain says; every mailbox subscribed to the creep stream
     * receives the DEATHs broadcast, and every mailbox the controller reaches
     * then receives the report (the behaviour's own mailbox included, when it
     * is one of them).
     */
    method DoRun(now: int) returns (r: bool)
      requires core.signal.Read().FloatValue?
      modifies core.mailbox, core.signal, creepStream.sinks, Reach(controller)
      ensures var R := Drain(old(core.signal.Read()).x, old(core.signal.TimeStamp()), old(core.mailbox.events),
                             old(core.mailbox in creepStream.sinks), this, creepStream, now, []);
        var told := if R.report.Some? then [R.report.value] else [];
        r == R.result &&
        core.mailbox.events == R.rest + (if core.mailbox in Reach(controller) then told else []) &&
        core.signal.Read() == FloatValue(R.hp) && core.signal.TimeStamp() == R.stamp &&
        (forall m :: m in creepStream.sinks + Reach(controller) && m != core.mailbox ==>
           m.events == old(m.events) + (if m in creepStream.sinks then R.deaths else [])
                                     + (if m in Reach(controller) then told else []))
      ensures creepStream.sinks == old(creepStream.sinks) && Reach(controller) == old(Reach(controller))
    {
      var box := core.mailbox;
      ghost var echo := box in creepStream.sinks;
      ghost var R := Drain(core.signal.Read().x, core.signal.TimeStamp(), box.events, echo, this, creepStream, now, []);
      ghost var sent: seq<Event> := [];
      ghost var others := creepStream.sinks + Reach(controller) - {box};
      while box.events != []
        invariant core.signal.Read().FloatValue?
        invariant creepStream.sinks == old(creepStream.sinks) && Reach(controller) == old(Reach(controller))
        invariant Drain(core.signal.Read().x, core.signal.TimeStamp(), box.events, echo, this, creepStream, now, sent) == R
        invariant forall m :: m in others ==> m.events == old(m.events) + (if m in creepStream.sinks then sent else [])
        decreases |box.events| + Damages(box.events)
      {
        var polled := box.Poll();
        var e := polled.value;
        if e.value == Generic(Death) {
          Deliver(controller, Event(creepStream, Generic(Death), Targetted, now));
          return false;
        } else if e.value.Damage? {
          sent := Hit(e, now, echo, others, sent);
        }
      }
      return true;
    }

    /** One damage event of doRun: the hit points drop by its amount, and a lethal hit broadcasts a DEATH and writes 0. */
    method Hit(e: Event, now: int, ghost echo: bool, ghost others: set<Mailbox>, ghost sent: seq<Event>)
      returns (ghost sent': seq<Event>)
      requires e.value.Damage? && core.signal.Read().FloatValue?
      requires echo == (core.mailbox in creepStream.sinks) && core.mailbox !in others
      modifies core.signal, creepStream.sinks
      ensures core.signal.Read().FloatValue? && creepStream.sinks == old(creepStream.sinks)
      ensures Drain(core.signal.Read().x, core.signal.TimeStamp(), core.mailbox.events, echo, this, creepStream, now, sent')
           == Drain(old(core.signal.Read()).x, old(core.signal.TimeStamp()), [e] + old(core.mailbox.events),
                    echo, this, creepStream, now, sent)
      ensures |core.mailbox.events| + Damages(core.mailbox.events) < 1 + |old(core.mailbox.events)| + Damages([e] + old(core.mailbox.events))
      ensures |sent| <= |sent'| && sent'[..|sent|] == sent
      ensures forall m :: m in others ==>
        m.events == old(m.events) + (if m in creepStream.sinks then sent'[|sent|..] else [])
    {
      var q := [e] + core.mailbox.events;
      assert q[1..] == core.mailbox.events;
      var hp := core.signal.Read().x - e.value.amount;
      sent' := sent;
      if hp <= 0.0 {
        var d := Obituary(this, e);
        DamagesAppend(core.mailbox.events, d);
        creepStream.HandleEvent(d);
        sent' := sent + [d];
        hp := 0.0;
      }
      core.signal.Write(FloatValue(hp), now);
    }

    /** call: the start and end times bracket doRun, whose answer it returns. */
    method Call(start: int, now: int, end: int) returns (r: bool)
      requires core.signal.Read().FloatValue?
      modifies core, core.mailbox, core.signal, creepStream.sinks, Reach(controller)
      ensures var R := Drain(old(core.signal.Read()).x, old(core.signal.TimeStamp()), old(core.mailbox.events),
                             old(core.mailbox in creepStream.sinks), this, creepStream, now, []);
        var told := if R.report.Some? then [R.report.value] else [];
        r == R.result &&
        core.mailbox.events == R.rest + (if core.mailbox in Reach(controller) then told else []) &&
        core.signal.Read() == FloatValue(R.hp) && core.signal.TimeStamp() == R.stamp &&
        (forall m :: m in creepStream.sinks + Reach(controller) && m != core.mailbox ==>
           m.events == old(m.events) + (if m in creepStream.sinks then R.deaths else [])
                                     + (if m in Reach(controller) then told else []))
      ensures core.lastStartTime == start && core.LastRunTime() == end - start
    {
      core.BeginRun(start);
      r := DoRun(now);
      core.EndRun(end);
    }
  }
}
