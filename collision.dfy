/**
 * CollisionBehaviour: tells the creep's stream, once per arrival, that the
 * creep has reached its current waypoint. The signal remembers whether the
 * creep was inside the waypoint's radius at the last run, so that only the
 * run on which it enters sends an event.
 */
module Collision {
  import opened Base
  import opened Events
  import opened Signals
  import opened Behaviours
  import opened SchedulingSpec

  /** Where the first DEATH of `q` sits, if there is one. */
  function FirstDeath(q: seq<Event>): (r: Option<nat>)
    ensures r.None? ==> forall i :: 0 <= i < |q| ==> !IsDeath(q[i])
    ensures r.Some? ==> r.value < |q| && IsDeath(q[r.value]) && forall i :: 0 <= i < r.value ==> !IsDeath(q[i])
  {
    if q == [] then None
    else if IsDeath(q[0]) then Some(0)
    else match FirstDeath(q[1..]) {
      case None => None
      case Some(i) => Some(i + 1)
    }
  }

  /** What the collision test does: the event sent, if any, and the value written to the signal, if any. */
  datatype Test = Test(sent: bool, written: Option<bool>)

  /**
   * The collision test once the mailbox is empty: `inside` says whether the
   * creep is within the radius and `was` is the value of the signal.
   */
  function Edge(inside: bool, was: bool): (t: Test)
    ensures t.sent <==> inside && !was
    ensures t.written == (if !inside then Some(false) else if !was then Some(true) else None)
  {
    if inside then (if !was then Test(true, Some(true)) else Test(false, None)) else Test(false, Some(false))
  }

  /** After any test the signal says whether the creep is inside. */
  lemma EdgeRemembers(inside: bool, was: bool)
    ensures var t := Edge(inside, was); (if t.written.Some? then t.written.value else was) == inside
  {
  }

  /** Edge triggering: two runs inside the radius in a row send one event between them. */
  lemma EdgeOnce(was: bool)
    ensures var t := Edge(true, was);
      var after := if t.written.Some? then t.written.value else was;
      !Edge(true, after).sent
  {
  }

  class CollisionBehaviour {
    const core: Behaviour
    const position: Signal
    const radius: Signal
    const collider: Signal
    var creepStream: Option<Sink>

    /** CollisionBehaviour(signal, position, radius, collider, creepStream): reads the creep position; talks to, and listens on, the creep stream. */
    constructor (signal: Signal, position: Signal, radius: Signal, collider: Signal, creepStream: Stream, now: int)
      modifies creepStream
      ensures fresh(core) && fresh(core.mailbox) && core.signal == signal && core.mailbox.events == []
      ensures core.inputs == [position] && this.position == position && this.radius == radius && this.collider == collider
      ensures this.creepStream == Some(ToStream(creepStream))
      ensures creepStream.sinks == old(creepStream.sinks) + {core.mailbox}
    {
      var b := new Behaviour("CollisionBehaviour", signal, now);
      b.AddInput(position);
      core := b;
      this.position := position;
      this.radius := radius;
      this.collider := collider;
      new;
      AddSink(ToStream(creepStream));
      creepStream.AddSink(core.mailbox);
    }

    /** addSink: the single sink is replaced. */
    method AddSink(sink: Sink)
      modifies this
      ensures creepStream == Some(sink)
    {
      creepStream := Some(sink);
    }

    /** removeSink: the sink is cleared, whatever `sink` is. */
    method RemoveSink(sink: Sink)
      modifies this
      ensures creepStream == None
    {
      creepStream := None;
    }

    /** The mailboxes the collision event reaches. */
    ghost function Audience(): set<Mailbox>
      reads this, if creepStream.Some? && creepStream.value.ToStream? then {creepStream.value.stream} else {}
    {
      if creepStream.Some? then Reach(creepStream.value) else {}
    }

    /** notifySinks: the event goes to the sink; with the sink cleared the call throws. */
    method NotifySinks(e: Event) returns (threw: bool)
      modifies Audience()
      ensures threw <==> creepStream == None
      ensures Audience() == old(Audience())
      ensures forall m :: m in Audience() ==> m.events == old(m.events) + [e]
    {
      if creepStream == None {
        return true;
      }
      Deliver(creepStream.value, e);
      return false;
    }

    /**
     * doRun, with `inside` the outcome of the distance test and `now` the
     * clock reading: a DEATH ends the run with false, leaving the events
     * behind it queued; otherwise the drained mailbox is followed by the
     * edge-triggered collision test.
     */
    method DoRun(inside: bool, now: int) returns (r: Outcome)
      requires core.signal.Read().BoolValue? && collider.Read().CheckPointValue?
      modifies core.mailbox, core.signal, Audience()
      ensures Audience() == old(Audience())
      ensures var q := old(core.mailbox.events);
        var t := Edge(inside, old(core.signal.Read()).b);
        var e := Event(this, Collision(collider.Read().cp), Targetted, now);
        match FirstDeath(q)
        case Some(i) =>
          r == Returned(false) && core.mailbox.events == q[i + 1..] &&
          core.signal.Read() == old(core.signal.Read()) && core.signal.TimeStamp() == old(core.signal.TimeStamp()) &&
          forall m :: m in Audience() && m != core.mailbox ==> m.events == old(m.events)
        case None =>
          var threw := t.sent && creepStream == None;
          var sent := t.sent && creepStream.Some?;
          r == (if threw then Threw else Returned(true)) &&
          core.mailbox.events == (if sent && core.mailbox in Audience() then [e] else []) &&
          (forall m :: m in Audience() && m != core.mailbox ==>
             m.events == old(m.events) + (if sent then [e] else [])) &&
          (if threw || t.written.None? then
             core.signal.Read() == old(core.signal.Read()) && core.signal.TimeStamp() == old(core.signal.TimeStamp())
           else core.signal.Read() == BoolValue(t.written.value) && core.signal.TimeStamp() == now)
    {
      var box := core.mailbox;
      ghost var q := box.events;
      while box.events != []
        invariant 0 <= |q| - |box.events| && box.events == q[|q| - |box.events|..]
        invariant forall i :: 0 <= i < |q| - |box.events| ==> !IsDeath(q[i])
        invariant core.signal.Read() == old(core.signal.Read()) && core.signal.TimeStamp() == old(core.signal.TimeStamp())
        invariant forall m :: m in Audience() && m != box ==> m.events == old(m.events)
      {
        ghost var k := |q| - |box.events|;
        var polled := box.Poll();
        var e := polled.value;
        assert e == q[k] && box.events == q[k + 1..];
        if e.value == Generic(Death) {
          assert FirstDeath(q) == Some(k);
          return Returned(false);
        }
      }
      assert FirstDeath(q) == None;
      if inside {
        if core.signal.Read().b == false {
          var threw := NotifySinks(Event(this, Collision(collider.Read().cp), Targetted, now));
          if threw {
            return Threw;
          }
          core.signal.Write(BoolValue(true), now);
        }
      } else {
        core.signal.Write(BoolValue(false), now);
      }
      return Returned(true);
    }
  }
}
