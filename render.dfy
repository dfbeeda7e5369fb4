/**
 * RenderBehaviour: keeps the drawing side informed. It asks its draw
 * watchers to add it once created, asks them to remove it when its creep or
 * tower dies, and stamps its signal at every run it survives.
 */
module Render {
  import opened Base
  import opened Events
  import opened Signals
  import opened Behaviours

  /** The draw notification this behaviour broadcasts, stamped with the run's clock reading. */
  function Notice(self: object, m: Message, now: int): Event
  {
    Event(self, Generic(m), Broadcast, now)
  }

  /** What one doRun does: the notifications sent, in order, what is left in the mailbox, the answer. */
  datatype Run = Run(notices: seq<Event>, rest: seq<Event>, result: bool)

  /**
   * doRun over the mailbox `q`: each ADD_DRAWABLE is passed on as a
   * broadcast ADD_DRAWABLE, a DEATH becomes a broadcast REMOVE_DRAWABLE and
   * ends the run with false, anything else is dropped.
   */
  function Drain(self: object, q: seq<Event>, now: int): Run
  {
    if q == [] then Run([], [], true)
    else if q[0].value == Generic(Death) then Run([Notice(self, RemoveDrawable, now)], q[1..], false)
    else
      var r := Drain(self, q[1..], now);
      if q[0].value == Generic(AddDrawable) then r.(notices := [Notice(self, AddDrawable, now)] + r.notices) else r
  }

  /** How many ADD_DRAWABLEs `q` holds before its first DEATH. */
  function AddsBeforeDeath(q: seq<Event>): nat
  {
    if q == [] || q[0].value == Generic(Death) then 0
    else (if q[0].value == Generic(AddDrawable) then 1 else 0) + AddsBeforeDeath(q[1..])
  }

  /**
   * The watchers hear one ADD_DRAWABLE per ADD_DRAWABLE received before any
   * DEATH, followed by one REMOVE_DRAWABLE exactly when the run ends with
   * false; a run ending with true has drained the mailbox.
   */
  lemma {:induction false} DrainNotices(self: object, q: seq<Event>, now: int)
    ensures var r := Drain(self, q, now);
      var k := AddsBeforeDeath(q);
      r.notices == Repeat(Notice(self, AddDrawable, now), k) + (if r.result then [] else [Notice(self, RemoveDrawable, now)]) &&
      (r.result ==> r.rest == []) &&
      (!r.result <==> exists i :: 0 <= i < |q| && IsDeath(q[i]))
  {
    if q != [] && q[0].value != Generic(Death) {
      DrainNotices(self, q[1..], now);
      var r := Drain(self, q[1..], now);
      if exists i :: 0 <= i < |q| && IsDeath(q[i]) {
        var i :| 0 <= i < |q| && IsDeath(q[i]);
        assert IsDeath(q[1..][i - 1]);
      }
      if exists i :: 0 <= i < |q[1..]| && IsDeath(q[1..][i]) {
        var i :| 0 <= i < |q[1..]| && IsDeath(q[1..][i]);
        assert IsDeath(q[i + 1]);
      }
    } else if q != [] {
      assert IsDeath(q[0]);
    }
  }

  /** Every event of `es`, each copied `k` times in a row. */
  function Copies(es: seq<Event>, k: nat): seq<Event>
  {
    if es == [] then [] else Copies(es[..|es| - 1], k) + Repeat(es[|es| - 1], k)
  }

  lemma CopiesSnoc(es: seq<Event>, e: Event, k: nat)
    ensures Copies(es + [e], k) == Copies(es, k) + Repeat(e, k)
  {
    assert (es + [e])[..|es + [e]| - 1] == es;
  }

  /** Every watcher holds what it held at `base` followed by each notification of `sent`, once per sink of `sinks` reaching it. */
  ghost predicate Told(watchers: set<Mailbox>, base: map<Mailbox, seq<Event>>, sent: seq<Event>,
                       sinks: set<Sink>, reach: map<Sink, set<Mailbox>>)
    reads watchers
  {
    forall m :: m in watchers ==> m in base && m.events == base[m] + Copies(sent, HitsIn(sinks, reach, m))
  }

  class RenderBehaviour {
    const core: Behaviour
    const position: Signal
    const tileSize: Signal
    var sinks: set<Sink>
    var previous: int

    /**
     * RenderBehaviour(signal, position, tileSize, sprite, drawWatcher): the
     * draw watcher is the first sink, and an ADD_DRAWABLE addressed to this
     * behaviour waits in its own mailbox, so that its first run announces it.
     */
    constructor (signal: Signal, position: Signal, tileSize: Signal, drawWatcher: Sink, now: int)
      ensures fresh(core) && fresh(core.mailbox) && core.signal == signal && core.inputs == []
      ensures this.position == position && this.tileSize == tileSize
      ensures sinks == {drawWatcher} && previous == now
      ensures core.mailbox.events == [Event(this, Generic(AddDrawable), Targetted, now)]
    {
      core := new Behaviour("RenderBehaviour", signal, now);
      this.position := position;
      this.tileSize := tileSize;
      sinks := {};
      previous := now;
      new;
      AddSink(drawWatcher);
      core.HandleEvent(Event(this, Generic(AddDrawable), Targetted, now));
    }

    /** addSink: set semantics, adding a sink twice keeps one. */
    method AddSink(sink: Sink)
      modifies this
      ensures sinks == old(sinks) + {sink} && previous == old(previous)
    {
      sinks := sinks + {sink};
    }

    /** removeSink: the sink goes; removing an absent one changes nothing. */
    method RemoveSink(sink: Sink)
      modifies this
      ensures sinks == old(sinks) - {sink} && previous == old(previous)
    {
      sinks := sinks - {sink};
    }

    /** notifySinks: every mailbox gets one copy of `e` per sink that reaches it. */
    method NotifySinks(e: Event)
      modifies ReachAll(sinks)
      ensures ReachAll(sinks) == old(ReachAll(sinks))
      ensures forall m :: m in ReachAll(sinks) ==> m.events == old(m.events) + Repeat(e, Hits(sinks, m))
    {
      Publish(sinks, e);
    }

    /**
     * doRun, with `now` the clock reading: the mailbox is drained as Drain
     * says and every notification reaches each watching mailbox once per
     * sink that reaches it; unless a DEATH ended the run, the signal is then
     * written true at `now`. The behaviour must not be watching itself: an
     * ADD_DRAWABLE would then come back to its own mailbox on every pass and
     * the drain would never end.
     */
    method DoRun(now: int) returns (r: bool)
      requires core.mailbox !in ReachAll(sinks)
      modifies core.mailbox, core.signal, ReachAll(sinks)
      ensures ReachAll(sinks) == old(ReachAll(sinks))
      ensures var R := Drain(this, old(core.mailbox.events), now);
        r == R.result && core.mailbox.events == R.rest &&
        (forall m :: m in ReachAll(sinks) ==> m.events == old(m.events) + Copies(R.notices, Hits(sinks, m))) &&
        (if r then core.signal.Read() == BoolValue(true) && core.signal.TimeStamp() == now
         else core.signal.Read() == old(core.signal.Read()) && core.signal.TimeStamp() == old(core.signal.TimeStamp()))
    {
      ghost var reach := map s | s in sinks :: Reach(s);
      SnapshotAgrees(sinks, reach);
      r := Pass(now, reach);
      if r {
        Stamp(now, reach);
      }
      SnapshotAgrees(sinks, reach);
    }

    /** The last step of a run that survives: the signal is written true at `now`; no mailbox and no stream changes. */
    method Stamp(now: int, ghost reach: map<Sink, set<Mailbox>>)
      requires Snapshot(sinks, reach)
      modifies core.signal
      ensures Snapshot(sinks, reach)
      ensures core.signal.Read() == BoolValue(true) && core.signal.TimeStamp() == now
      ensures forall m :: m in Targets(sinks, reach) ==> m.events == old(m.events)
    {
      core.signal.Write(BoolValue(true), now);
      assert forall s :: s in sinks ==> Reach(s) == old(Reach(s));
    }

    /** The loop of doRun: the mailbox is drained and the notifications go out, as Drain says. */
    method Pass(now: int, ghost reach: map<Sink, set<Mailbox>>) returns (r: bool)
      requires Snapshot(sinks, reach) && core.mailbox !in Targets(sinks, reach)
      modifies core.mailbox, Targets(sinks, reach)
      ensures Snapshot(sinks, reach)
      ensures var R := Drain(this, old(core.mailbox.events), now);
        r == R.result && core.mailbox.events == R.rest &&
        (forall m :: m in Targets(sinks, reach) ==> m.events == old(m.events) + Copies(R.notices, HitsIn(sinks, reach, m)))
    {
      ghost var watchers := Targets(sinks, reach);
      ghost var base := map m | m in watchers :: m.events;
      var box := core.mailbox;
      ghost var R := Drain(this, box.events, now);
      ghost var sent: seq<Event> := [];
      while box.events != []
        invariant Snapshot(sinks, reach)
        invariant sent + Drain(this, box.events, now).notices == R.notices
        invariant Drain(this, box.events, now).rest == R.rest && Drain(this, box.events, now).result == R.result
        invariant Told(watchers, base, sent, sinks, reach)
      {
        var polled := box.Poll();
        var e := polled.value;
        if e.value == Generic(Death) {
          Announce(Notice(this, RemoveDrawable, now), reach, watchers, base, sent);
          return false;
        } else if e.value == Generic(AddDrawable) {
          Announce(Notice(this, AddDrawable, now), reach, watchers, base, sent);
          sent := sent + [Notice(this, AddDrawable, now)];
        }
      }
      assert sent == R.notices;
      return true;
    }

    /**
     * One notifySinks of doRun, seen as one more notification at the end of
     * the sequence `sent`; `reach` is what each sink reached when the run
     * began, which no notification changes.
     */
    method Announce(e: Event, ghost reach: map<Sink, set<Mailbox>>, ghost watchers: set<Mailbox>,
                    ghost base: map<Mailbox, seq<Event>>, ghost sent: seq<Event>)
      requires Snapshot(sinks, reach) && watchers == Targets(sinks, reach)
      requires Told(watchers, base, sent, sinks, reach)
      modifies watchers
      ensures Snapshot(sinks, reach)
      ensures Told(watchers, base, sent + [e], sinks, reach)
    {
      SnapshotAgrees(sinks, reach);
      NotifySinks(e);
      assert forall s :: s in sinks ==> Reach(s) == old(Reach(s));
      SnapshotAgrees(sinks, reach);
      forall m | m in watchers
        ensures m.events == base[m] + Copies(sent + [e], HitsIn(sinks, reach, m))
      {
        CopiesSnoc(sent, e, HitsIn(sinks, reach, m));
      }
    }
  }
}
