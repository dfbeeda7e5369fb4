/**
 * Events and the objects that carry them: an event is an immutable record
 * stamped with its source and time; a behaviour's mailbox is the queue its
 * handleEvent appends to; a stream fans every event out to the sinks
 * subscribed to it.
 */
module Events {
  import opened Base

  /** The messages a GenericEvent can carry. */
  datatype Message = NewBehaviour | Death | ForgetAll | AddDrawable | RemoveDrawable

  /** Event.Type: whether an event is meant for everyone subscribed or for one receiver. */
  datatype Kind = Broadcast | Targetted

  /** The kinds of change a BuildAreaModEvent asks for. */
  datatype BuildAreaChange = AddLocation | RemoveLocation | RemoveAll

  /** The concrete event classes, each with the value it carries. */
  datatype Payload =
    | Generic(message: Message)                                  // GenericEvent
    | Collision(checkpoint: CheckPoint)                          // CollisionEvent
    | Damage(amount: real)                                       // DamageEvent
    | CreepSpawn(position: Vector2, waypoints: seq<CheckPoint>)  // CreepSpawnEvent
    | BuildAreaMod(change: BuildAreaChange, location: Point)      // BuildAreaModEvent
    | TowerSpawn(location: Point)                                // TowerSpawnEvent

  /** An event: its source, its value, its type and its time stamp in nanoseconds. */
  datatype Event = Event(source: object, value: Payload, kind: Kind, time: int)

  predicate IsDeath(e: Event) { e.value == Generic(Death) }

  /** The queue a behaviour's handleEvent appends to and its doRun drains. */
  class Mailbox {
    var events: seq<Event>

    constructor ()
      ensures events == []
    {
      events := [];
    }

    /** handleEvent: the event goes to the tail of the queue. */
    method HandleEvent(e: Event)
      modifies this
      ensures events == old(events) + [e]
    {
      events := events + [e];
    }

    /** poll: the head of the queue, or nothing when the queue is empty. */
    method Poll() returns (r: Option<Event>)
      modifies this
      ensures old(events) == [] ==> r == None && events == []
      ensures old(events) != [] ==> r == Some(old(events)[0]) && events == old(events)[1..]
    {
      if events == [] {
        r := None;
      } else {
        r := Some(events[0]);
        events := events[1..];
      }
    }
  }

  /** A stream: every event it is handed is passed on to every subscribed sink. */
  class Stream {
    var sinks: set<Mailbox>

    constructor ()
      ensures sinks == {}
    {
      sinks := {};
    }

    method AddSink(m: Mailbox)
      modifies this
      ensures sinks == old(sinks) + {m}
    {
      sinks := sinks + {m};
    }

    method RemoveSink(m: Mailbox)
      modifies this
      ensures sinks == old(sinks) - {m}
    {
      sinks := sinks - {m};
    }

    /** handleEvent: a stream handles an event by notifying its sinks. */
    method HandleEvent(e: Event)
      modifies sinks
      ensures sinks == old(sinks)
      ensures forall m :: m in sinks ==> m.events == old(m.events) + [e]
    {
      NotifySinks(e);
    }

    /** notifySinks: each subscribed sink gets the event exactly once. */
    method NotifySinks(e: Event)
      modifies sinks
      ensures sinks == old(sinks)
      ensures forall m :: m in sinks ==> m.events == old(m.events) + [e]
    {
      FanOut(sinks, e);
    }
  }

  /** Hands `e` once to every mailbox of `targets`, in no particular order. */
  method FanOut(targets: set<Mailbox>, e: Event)
    modifies targets
    ensures forall m :: m in targets ==> m.events == old(m.events) + [e]
  {
    var todo := targets;
    while todo != {}
      invariant todo <= targets
      invariant forall m :: m in targets - todo ==> m.events == old(m.events) + [e]
      invariant forall m :: m in todo ==> m.events == old(m.events)
      decreases |todo|
    {
      var m :| m in todo;
      m.HandleEvent(e);
      todo := todo - {m};
    }
  }

  /**
   * Something events can be handed to: a behaviour's mailbox directly, or a
   * stream that passes them on.
   */
  datatype Sink = ToMailbox(box: Mailbox) | ToStream(stream: Stream)

  /** The mailboxes an event handed to `s` ends up in. */
  ghost function Reach(s: Sink): set<Mailbox>
    reads if s.ToStream? then {s.stream} else {}
  {
    match s
    case ToMailbox(m) => {m}
    case ToStream(st) => st.sinks
  }

  /** handleEvent on a sink: every mailbox it reaches gets the event exactly once. */
  method Deliver(s: Sink, e: Event)
    modifies Reach(s)
    ensures Reach(s) == old(Reach(s))
    ensures forall m :: m in Reach(s) ==> m.events == old(m.events) + [e]
  {
    match s
    case ToMailbox(m) => m.HandleEvent(e);
    case ToStream(st) => st.HandleEvent(e);
  }

  ghost function Streams(sinks: set<Sink>): set<Stream>
  {
    set s | s in sinks && s.ToStream? :: s.stream
  }

  /** Every mailbox some sink of `sinks` reaches. */
  ghost function ReachAll(sinks: set<Sink>): set<Mailbox>
    reads Streams(sinks)
  {
    set s, m | s in sinks && m in Reach(s) :: m
  }

  /** How many sinks of `sinks` reach `m`, that is how many copies of one notification `m` gets. */
  ghost function Hits(sinks: set<Sink>, m: Mailbox): nat
    reads Streams(sinks)
  {
    |set s | s in sinks && m in Reach(s)|
  }

  /** Hits over a snapshot `reach` of what each sink reaches. */
  ghost function HitsIn(sinks: set<Sink>, reach: map<Sink, set<Mailbox>>, m: Mailbox): nat
  {
    |set s | s in sinks && m in Lookup(reach, s)|
  }

  ghost function Lookup(reach: map<Sink, set<Mailbox>>, s: Sink): set<Mailbox>
  {
    if s in reach then reach[s] else {}
  }

  lemma HitsNone(reach: map<Sink, set<Mailbox>>, targets: set<Mailbox>)
    ensures forall m :: m in targets ==> HitsIn({}, reach, m) == 0
  {
    forall m | m in targets
      ensures HitsIn({}, reach, m) == 0
    {
      assert (set s | s in {} && m in Lookup(reach, s)) == {};
    }
  }

  lemma HitsStep(done: set<Sink>, s: Sink, reach: map<Sink, set<Mailbox>>, m: Mailbox)
    requires s !in done && s in reach
    ensures HitsIn(done + {s}, reach, m) == HitsIn(done, reach, m) + (if m in reach[s] then 1 else 0)
  {
    var before := set s' | s' in done && m in Lookup(reach, s');
    var after := set s' | s' in done + {s} && m in Lookup(reach, s');
    if m in reach[s] {
      assert after == before + {s};
    } else {
      assert after == before;
    }
  }

  lemma PublishStep(done: set<Sink>, s: Sink, e: Event, reach: map<Sink, set<Mailbox>>, targets: set<Mailbox>)
    requires s !in done && s in reach
    ensures forall m :: m in targets && m in reach[s] ==>
      Repeat(e, HitsIn(done, reach, m)) + [e] == Repeat(e, HitsIn(done + {s}, reach, m))
    ensures forall m :: m in targets && m !in reach[s] ==> HitsIn(done, reach, m) == HitsIn(done + {s}, reach, m)
  {
    forall m | m in targets
      ensures HitsIn(done + {s}, reach, m) == HitsIn(done, reach, m) + (if m in reach[s] then 1 else 0)
    {
      HitsStep(done, s, reach, m);
    }
    forall m | m in targets && m in reach[s]
      ensures Repeat(e, HitsIn(done, reach, m)) + [e] == Repeat(e, HitsIn(done, reach, m) + 1)
    {
      RepeatAppend(e, HitsIn(done, reach, m));
    }
  }

  /** Every mailbox of `targets` holds what it held at `base` plus one copy of `e` per sink of `done` reaching it. */
  ghost predicate Progress(targets: set<Mailbox>, base: map<Mailbox, seq<Event>>, e: Event,
                           done: set<Sink>, reach: map<Sink, set<Mailbox>>)
    reads targets
  {
    forall m :: m in targets ==> m in base && m.events == base[m] + Repeat(e, HitsIn(done, reach, m))
  }

  /** `reach` records what every sink of `sinks` reaches. */
  ghost predicate Snapshot(sinks: set<Sink>, reach: map<Sink, set<Mailbox>>)
    reads Streams(sinks)
  {
    forall s :: s in sinks ==> s in reach && Reach(s) == reach[s]
  }

  /** One sink's share of Publish: the mailboxes it reaches get one more copy of `e`. */
  method DeliverCounted(s: Sink, e: Event, ghost sinks: set<Sink>, ghost done: set<Sink>,
                        ghost reach: map<Sink, set<Mailbox>>, ghost targets: set<Mailbox>,
                        ghost base: map<Mailbox, seq<Event>>)
    requires s in sinks && s !in done && Snapshot(sinks, reach) && Reach(s) <= targets
    requires Progress(targets, base, e, done, reach)
    modifies Reach(s)
    ensures Snapshot(sinks, reach)
    ensures Progress(targets, base, e, done + {s}, reach)
  {
    PublishStep(done, s, e, reach, targets);
    ghost var pre := map m | m in targets :: m.events;
    Deliver(s, e);
    forall m | m in targets
      ensures m.events == base[m] + Repeat(e, HitsIn(done + {s}, reach, m))
    {
      if m in reach[s] {
        assert m.events == pre[m] + [e];
      } else {
        assert m.events == pre[m];
      }
    }
    assert forall s' :: s' in sinks && s'.ToStream? ==> s'.stream.sinks == old(s'.stream.sinks);
  }

  /**
   * notifySinks over a set of sinks: each mailbox gets one copy of `e` for
   * every sink that reaches it.
   */
  method Publish(sinks: set<Sink>, e: Event)
    modifies ReachAll(sinks)
    ensures ReachAll(sinks) == old(ReachAll(sinks))
    ensures forall m :: m in ReachAll(sinks) ==> m.events == old(m.events) + Repeat(e, Hits(sinks, m))
  {
    ghost var reach: map<Sink, set<Mailbox>> := map s | s in sinks :: Reach(s);
    ghost var targets: set<Mailbox> := Targets(sinks, reach);
    ghost var base: map<Mailbox, seq<Event>> := map m | m in targets :: m.events;
    PublishStart(sinks, reach, targets, base, e);
    var todo := sinks;
    while todo != {}
      invariant todo <= sinks
      invariant Snapshot(sinks, reach)
      invariant Progress(targets, base, e, sinks - todo, reach)
      decreases |todo|
    {
      var s :| s in todo;
      TargetsCover(sinks, reach, s);
      DeliverCounted(s, e, sinks, sinks - todo, reach, targets, base);
      TakeOne(sinks, todo, s);
      todo := todo - {s};
    }
    assert sinks - todo == sinks;
    PublishEnd(sinks, reach, targets, base, e);
  }

  /** Set facts for taking one element out of the work list `todo` of a loop over `all`. */
  lemma TakeOne<T>(all: set<T>, todo: set<T>, x: T)
    requires x in todo && todo <= all
    ensures all - (todo - {x}) == (all - todo) + {x} && |todo - {x}| < |todo|
  {
  }

  ghost function Targets(sinks: set<Sink>, reach: map<Sink, set<Mailbox>>): set<Mailbox>
  {
    set s, m | s in sinks && m in Lookup(reach, s) :: m
  }

  lemma TargetsCover(sinks: set<Sink>, reach: map<Sink, set<Mailbox>>, s: Sink)
    requires s in sinks && Snapshot(sinks, reach)
    ensures Reach(s) <= Targets(sinks, reach)
  {
    forall m | m in Reach(s)
      ensures m in Targets(sinks, reach)
    {
      assert m in Lookup(reach, s);
    }
  }

  lemma TargetsAgree(sinks: set<Sink>, reach: map<Sink, set<Mailbox>>)
    requires Snapshot(sinks, reach)
    ensures Targets(sinks, reach) == ReachAll(sinks)
  {
    forall m | m in ReachAll(sinks)
      ensures m in Targets(sinks, reach)
    {
      var s :| s in sinks && m in Reach(s);
      assert m in Lookup(reach, s);
    }
    forall m | m in Targets(sinks, reach)
      ensures m in ReachAll(sinks)
    {
      var s :| s in sinks && m in Lookup(reach, s);
      assert m in Reach(s);
    }
  }

  lemma PublishStart(sinks: set<Sink>, reach: map<Sink, set<Mailbox>>, targets: set<Mailbox>,
                     base: map<Mailbox, seq<Event>>, e: Event)
    requires reach == map s | s in sinks :: Reach(s)
    requires targets == Targets(sinks, reach)
    requires base == map m | m in targets :: m.events
    ensures Snapshot(sinks, reach)
    ensures targets == ReachAll(sinks)
    ensures Progress(targets, base, e, {}, reach)
  {
    TargetsAgree(sinks, reach);
    HitsNone(reach, targets);
  }

  lemma PublishEnd(sinks: set<Sink>, reach: map<Sink, set<Mailbox>>, targets: set<Mailbox>,
                   base: map<Mailbox, seq<Event>>, e: Event)
    requires Snapshot(sinks, reach)
    requires targets == Targets(sinks, reach)
    requires Progress(targets, base, e, sinks, reach)
    ensures targets == ReachAll(sinks)
    ensures forall m :: m in targets ==> m.events == base[m] + Repeat(e, Hits(sinks, m))
  {
    SnapshotAgrees(sinks, reach);
  }

  /** A snapshot taken of `sinks` answers every question about them as the sinks themselves do. */
  lemma SnapshotAgrees(sinks: set<Sink>, reach: map<Sink, set<Mailbox>>)
    requires Snapshot(sinks, reach)
    ensures Targets(sinks, reach) == ReachAll(sinks)
    ensures forall m :: HitsIn(sinks, reach, m) == Hits(sinks, m)
  {
    TargetsAgree(sinks, reach);
    forall m
      ensures HitsIn(sinks, reach, m) == Hits(sinks, m)
    {
      assert (set s | s in sinks && m in Lookup(reach, s)) == (set s | s in sinks && m in Reach(s));
    }
  }
}
