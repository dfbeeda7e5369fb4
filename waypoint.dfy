/**
 * WaypointBehaviour: a creep's route. Its signal holds the waypoint the creep
 * is heading for; each collision with that waypoint moves the signal on to the
 * next one, and a collision after the last waypoint kills the creep.
 */
module Waypoint {
  import opened Base
  import opened Events
  import opened Signals
  import opened Behaviours

  /** What one doRun does: the waypoints left, the last one written to the signal, what is left in the mailbox, whether DEATH was broadcast, the answer. */
  datatype Run = Run(waypoints: seq<CheckPoint>, last: Option<CheckPoint>, rest: seq<Event>, died: bool, result: bool)

  /**
   * doRun over the mailbox `q` with the waypoints `ws` left, `last` being the
   * waypoint the run has written so far. The waypoints are taken from the
   * front, in order, one per collision, and the signal ends on the last one
   * taken.
   */
  function Drain(ws: seq<CheckPoint>, q: seq<Event>, last: Option<CheckPoint>): Run
  {
    if q == [] then Run(ws, last, [], false, true)
    else
      var e := q[0];
      if e.value.Collision? then
        if ws == [] then Run(ws, last, q[1..], true, false)
        else Drain(ws[1..], q[1..], Some(ws[0]))
      else if e.value == Generic(Death) then Run(ws, last, q[1..], false, false)
      else Drain(ws, q[1..], last)
  }

  /**
   * The route is consumed from the front, in order: what is left is a suffix
   * of `ws` and the signal ends on the waypoint just before it. A run ends
   * with true only once the mailbox is empty, and DEATH is broadcast only
   * when the route has run out.
   */
  lemma {:induction false} DrainRoute(ws: seq<CheckPoint>, q: seq<Event>, last: Option<CheckPoint>)
    ensures var r := Drain(ws, q, last);
      |r.waypoints| <= |ws| && r.waypoints == ws[|ws| - |r.waypoints|..] &&
      r.last == (if |r.waypoints| < |ws| then Some(ws[|ws| - |r.waypoints| - 1]) else last) &&
      (r.result ==> r.rest == [] && !r.died) &&
      (r.died ==> r.waypoints == [] && !r.result)
  {
    if q != [] {
      var e := q[0];
      if e.value.Collision? {
        if ws != [] {
          DrainRoute(ws[1..], q[1..], Some(ws[0]));
          var r := Drain(ws[1..], q[1..], Some(ws[0]));
          assert ws[1..][|ws| - 1 - |r.waypoints|..] == ws[|ws| - |r.waypoints|..];
          if |r.waypoints| < |ws| - 1 {
            assert ws[1..][|ws| - 1 - |r.waypoints| - 1] == ws[|ws| - |r.waypoints| - 1];
          }
        }
      } else if e.value != Generic(Death) {
        DrainRoute(ws, q[1..], last);
      }
    }
  }

  /** Collisions are the only events that take waypoints: a run with no collisions keeps them all. */
  lemma {:induction false} NoCollisionKeepsRoute(ws: seq<CheckPoint>, q: seq<Event>, last: Option<CheckPoint>)
    requires forall i :: 0 <= i < |q| ==> !q[i].value.Collision?
    ensures Drain(ws, q, last).waypoints == ws && Drain(ws, q, last).last == last && !Drain(ws, q, last).died
  {
    if q != [] {
      NoCollisionKeepsRoute(ws, q[1..], last);
    }
  }

  /** A route of n waypoints absorbs n collisions; collision n + 1 kills the creep. */
  lemma {:induction false} RouteExhausted(ws: seq<CheckPoint>, n: nat, q: seq<Event>, last: Option<CheckPoint>)
    requires n < |q| && |ws| == n
    requires forall i :: 0 <= i <= n ==> q[i].value.Collision?
    ensures Drain(ws, q, last).died && Drain(ws, q, last).rest == q[n + 1..]
  {
    if n > 0 {
      RouteExhausted(ws[1..], n - 1, q[1..], Some(ws[0]));
      assert q[1..][n..] == q[n + 1..];
    }
  }

  class WaypointBehaviour {
    const core: Behaviour
    var waypoints: seq<CheckPoint>
    const creepStream: Stream

    /**
     * The part of WaypointBehaviour(goal, waypoints, creepStream) that runs
     * when the route is not empty: the route is copied, its first waypoint
     * is written to the goal signal, and the behaviour listens on the creep
     * stream.
     */
    constructor (goal: Signal, ws: seq<CheckPoint>, creepStream: Stream, now: int)
      requires ws != []
      modifies goal, creepStream
      ensures fresh(core) && fresh(core.mailbox) && core.signal == goal && core.mailbox.events == [] && core.inputs == []
      ensures waypoints == ws[1..] && this.creepStream == creepStream
      ensures goal.Read() == CheckPointValue(ws[0]) && goal.TimeStamp() == now
      ensures creepStream.sinks == old(creepStream.sinks) + {core.mailbox}
    {
      core := new Behaviour("WaypointBehaviour", goal, now);
      waypoints := ws[1..];
      this.creepStream := creepStream;
      new;
      goal.Write(CheckPointValue(ws[0]), now);
      creepStream.AddSink(core.mailbox);
    }

    /**
     * doRun, with `now` the clock reading: the mailbox is drained as Drain
     * says; a DEATH broadcast reaches every mailbox on the creep stream, this
     * behaviour's own included when it is subscribed.
     */
    method DoRun(now: int) returns (r: bool)
      modifies this, core.mailbox, core.signal, creepStream.sinks
      ensures creepStream.sinks == old(creepStream.sinks)
      ensures var R := Drain(old(waypoints), old(core.mailbox.events), None);
        var d := Event(this, Generic(Death), Broadcast, now);
        r == R.result && waypoints == R.waypoints &&
        core.mailbox.events == R.rest + (if R.died && core.mailbox in creepStream.sinks then [d] else []) &&
        (forall m :: m in creepStream.sinks && m != core.mailbox ==>
           m.events == old(m.events) + (if R.died then [d] else [])) &&
        (if R.last.Some? then core.signal.Read() == CheckPointValue(R.last.value) && core.signal.TimeStamp() == now
         else core.signal.Read() == old(core.signal.Read()) && core.signal.TimeStamp() == old(core.signal.TimeStamp()))
    {
      var box := core.mailbox;
      ghost var R := Drain(waypoints, box.events, None);
      ghost var last: Option<CheckPoint> := None;
      if box.events == [] {
        return true;
      }
      while box.events != []
        invariant Drain(waypoints, box.events, last) == R
        invariant creepStream.sinks == old(creepStream.sinks)
        invariant forall m :: m in creepStream.sinks && m != box ==> m.events == old(m.events)
        invariant if last.Some? then core.signal.Read() == CheckPointValue(last.value) && core.signal.TimeStamp() == now
                  else core.signal.Read() == old(core.signal.Read()) && core.signal.TimeStamp() == old(core.signal.TimeStamp())
      {
        var polled := box.Poll();
        var e := polled.value;
        if e.value.Collision? {
          if waypoints == [] {
            creepStream.HandleEvent(Event(this, Generic(Death), Broadcast, now));
            return false;
          } else {
            var next := waypoints[0];
            waypoints := waypoints[1..];
            core.signal.Write(CheckPointValue(next), now);
            last := Some(next);
          }
        } else if e.value == Generic(Death) {
          return false;
        }
      }
      return true;
    }

    /** call: the start and end times bracket doRun, whose answer it returns. */
    method Call(start: int, now: int, end: int) returns (r: bool)
      modifies this, core, core.mailbox, core.signal, creepStream.sinks
      ensures var R := Drain(old(waypoints), old(core.mailbox.events), None);
        r == R.result && waypoints == R.waypoints
      ensures core.lastStartTime == start && core.LastRunTime() == end - start
    {
      core.BeginRun(start);
      r := DoRun(now);
      core.EndRun(end);
    }
  }

  /**
   * WaypointBehaviour(goal, waypoints, creepStream) as a whole: an empty
   * route throws IllegalArgumentException, here None, before anything is
   * subscribed or written.
   */
  method Create(goal: Signal, ws: seq<CheckPoint>, creepStream: Stream, now: int) returns (r: Option<WaypointBehaviour>)
    modifies goal, creepStream
    ensures ws == [] <==> r == None
    ensures ws == [] ==> goal.Read() == old(goal.Read()) && goal.TimeStamp() == old(goal.TimeStamp()) &&
                         creepStream.sinks == old(creepStream.sinks)
    ensures r.Some? ==> fresh(r.value) && fresh(r.value.core) && r.value.core.signal == goal &&
                        r.value.waypoints == ws[1..] && goal.Read() == CheckPointValue(ws[0]) &&
                        creepStream.sinks == old(creepStream.sinks) + {r.value.core.mailbox}
  {
    if ws == [] {
      return None;
    }
    var w := new WaypointBehaviour(goal, ws, creepStream, now);
    return Some(w);
  }
}
