/**
 * TowerFactoryBehaviour: keeps the list of tiles a tower may be built on as
 * its signal, and builds a tower, an attack behaviour and a render
 * behaviour announced to the behaviour watcher, whenever a TowerSpawnEvent
 * names a listed tile.
 */
module TowerFactory {
  import opened Base
  import opened Events
  import opened Signals
  import opened Behaviours
  import Attack
  import Render

  /** Nanoseconds between shots of a new tower: its fire rate is 0.1 shots a second. */
  const NanosPerShot := 10_000_000_000

  /** What one event does to the list of buildable tiles: the new list, the tile a tower was built on, whether the signal was written. */
  datatype Step = Step(points: seq<Point>, built: Option<Point>, written: bool)

  /**
   * The switch of doRun, as written: ADD_LOCATION and REMOVE_LOCATION both
   * append the tile, REMOVE_ALL empties the list, a TowerSpawnEvent on a
   * listed tile builds a tower there and takes its first occurrence off
   * the list; an unlisted tile and every other event change nothing.
   */
  function Apply(points: seq<Point>, v: Payload): Step
  {
    match v
    case BuildAreaMod(AddLocation, p) => Step(points + [p], None, true)
    case BuildAreaMod(RemoveLocation, p) => Step(points + [p], None, true)
    case BuildAreaMod(RemoveAll, _) => Step([], None, true)
    case TowerSpawn(p) => if p in points then Step(RemoveFirst(points, p), Some(p), true) else Step(points, None, false)
    case _ => Step(points, None, false)
  }

  /** What one doRun does: the final list, the tiles towers were built on in order, whether the signal was written. */
  datatype Run = Run(points: seq<Point>, towers: seq<Point>, written: bool)

  /** The tile list `o` names, as a sequence of zero or one tiles. */
  function Listed(o: Option<Point>): (r: seq<Point>)
    ensures o.None? ==> r == []
    ensures o.Some? ==> r == [o.value]
  {
    if o.Some? then [o.value] else []
  }

  /** doRun over the mailbox `q`, starting from the list `points`: the events are applied in order. */
  function Drain(points: seq<Point>, q: seq<Event>): Run
    decreases |q|
  {
    if q == [] then Run(points, [], false)
    else
      var s := Apply(points, q[0].value);
      var r := Drain(s.points, q[1..]);
      Run(r.points, Listed(s.built) + r.towers, s.written || r.written)
  }

  /** The tile an event offers: that of an ADD_LOCATION and, as written, of a REMOVE_LOCATION. */
  function Offer(v: Payload): seq<Point>
  {
    if v.BuildAreaMod? && v.change != RemoveAll then [v.location] else []
  }

  /** The tiles a mailbox offers, in order. */
  function Offered(q: seq<Event>): seq<Point>
    decreases |q|
  {
    if q == [] then [] else Offer(q[0].value) + Offered(q[1..])
  }

  predicate Clears(e: Event)
  {
    e.value.BuildAreaMod? && e.value.change == RemoveAll
  }

  /** One event loses no tile and makes none: what was listed or offered is what is listed or built after it. */
  lemma ApplyConserves(points: seq<Point>, v: Payload)
    requires !(v.BuildAreaMod? && v.change == RemoveAll)
    ensures var s := Apply(points, v);
      multiset(points) + multiset(Offer(v)) == multiset(s.points) + multiset(Listed(s.built))
  {
    if v.TowerSpawn? && v.location in points {
      assert multiset(RemoveFirst(points, v.location)) + multiset{v.location} == multiset(points);
    }
  }

  /**
   * No tile is lost or made twice: unless a REMOVE_ALL empties the list,
   * the tiles listed before the run and those offered during it are, as a
   * multiset, the tiles left listed plus one per tower built.
   */
  lemma {:induction false} DrainConserves(points: seq<Point>, q: seq<Event>)
    requires forall i :: 0 <= i < |q| ==> !Clears(q[i])
    ensures var r := Drain(points, q);
      multiset(points) + multiset(Offered(q)) == multiset(r.points) + multiset(r.towers)
    decreases |q|
  {
    if q != [] {
      var s := Apply(points, q[0].value);
      assert !Clears(q[0]);
      ApplyConserves(points, q[0].value);
      DrainConserves(s.points, q[1..]);
      var r := Drain(s.points, q[1..]);
      calc {
        multiset(points) + multiset(Offered(q));
        multiset(points) + multiset(Offer(q[0].value)) + multiset(Offered(q[1..]));
        multiset(s.points) + multiset(Listed(s.built)) + multiset(Offered(q[1..]));
        multiset(r.points) + multiset(r.towers) + multiset(Listed(s.built));
        multiset(r.points) + multiset(Listed(s.built) + r.towers);
      }
    }
  }

  /** One event builds only on a listed tile and lists only tiles that were listed or offered. */
  lemma ApplyFromListed(points: seq<Point>, v: Payload)
    ensures var s := Apply(points, v);
      (forall p :: p in Listed(s.built) ==> p in points) && forall p :: p in s.points ==> p in points || p in Offer(v)
  {
    if v.TowerSpawn? && v.location in points {
      var s := RemoveFirst(points, v.location);
      forall x | x in s ensures x in points {
        assert x in multiset(s);
      }
    }
  }

  /** Every tower is built on a tile that was listed before the run or offered during it. */
  lemma {:induction false} DrainBuildsListed(points: seq<Point>, q: seq<Event>)
    ensures forall p :: p in Drain(points, q).towers ==> p in points || p in Offered(q)
    decreases |q|
  {
    if q != [] {
      var s := Apply(points, q[0].value);
      ApplyFromListed(points, q[0].value);
      DrainBuildsListed(s.points, q[1..]);
    }
  }

  /** The signal is written exactly when the run holds a BuildAreaModEvent or builds a tower. */
  lemma {:induction false} DrainWrites(points: seq<Point>, q: seq<Event>)
    ensures var r := Drain(points, q);
      r.written <==> (r.towers != [] || exists i :: 0 <= i < |q| && q[i].value.BuildAreaMod?)
    decreases |q|
  {
    if q != [] {
      var s := Apply(points, q[0].value);
      DrainWrites(s.points, q[1..]);
      if exists i :: 0 <= i < |q[1..]| && q[1..][i].value.BuildAreaMod? {
        var i :| 0 <= i < |q[1..]| && q[1..][i].value.BuildAreaMod?;
        assert q[i + 1].value.BuildAreaMod?;
      }
      if exists i :: 0 <= i < |q| && q[i].value.BuildAreaMod? {
        var i :| 0 <= i < |q| && q[i].value.BuildAreaMod?;
        if i > 0 {
          assert q[1..][i - 1].value.BuildAreaMod?;
        }
      }
    }
  }

  /** One event further on, the run is still what it was: applying the head and draining the tail completes it. */
  lemma PendingStep(R: Run, sites: seq<Point>, written: bool, points: seq<Point>, q: seq<Event>)
    requires q != []
    requires var D := Drain(points, q); R == Run(D.points, sites + D.towers, written || D.written)
    ensures var s := Apply(points, q[0].value);
      var D := Drain(s.points, q[1..]);
      R == Run(D.points, (sites + Listed(s.built)) + D.towers, (written || s.written) || D.written)
  {
    var s := Apply(points, q[0].value);
    var D := Drain(s.points, q[1..]);
    assert sites + (Listed(s.built) + D.towers) == (sites + Listed(s.built)) + D.towers;
  }

  /** A TowerSpawnEvent on an unlisted tile, whatever comes before or after it, builds nothing and writes nothing. */
  lemma UnlistedSpawnIdle(points: seq<Point>, p: Point, source: object, kind: Kind, time: int)
    requires p !in points
    ensures Drain(points, [Event(source, TowerSpawn(p), kind, time)]) == Run(points, [], false)
  {
    assert Drain(points, [Event(source, TowerSpawn(p), kind, time)][1..]) == Run(points, [], false);
  }

  /** As written, REMOVE_LOCATION leaves the tile listed one more time than before. */
  lemma RemoveLocationAppends(points: seq<Point>, p: Point)
    ensures Apply(points, BuildAreaMod(RemoveLocation, p)).points == points + [p]
    ensures multiset(Apply(points, BuildAreaMod(RemoveLocation, p)).points)[p] == multiset(points)[p] + 1
  {
  }

  /** A tile offered and then withdrawn stays listed, as written: the withdrawal does not undo the offer. */
  lemma AddThenRemoveKeeps(p: Point, a: object, b: object, time: int)
    ensures var q := [Event(a, BuildAreaMod(AddLocation, p), Targetted, time), Event(b, BuildAreaMod(RemoveLocation, p), Targetted, time)];
      Drain([], q).points == [p, p]
  {
    var q := [Event(a, BuildAreaMod(AddLocation, p), Targetted, time), Event(b, BuildAreaMod(RemoveLocation, p), Targetted, time)];
    assert Apply([], q[0].value) == Step([p], None, true);
    assert Apply([p], q[1..][0].value) == Step([p, p], None, true);
    assert q[1..][1..] == [];
    assert Drain([p, p], q[1..][1..]) == Run([p, p], [], false);
  }

  /** The switch as evidently intended: REMOVE_LOCATION takes the first occurrence of the tile off the list. */
  function ApplyIntended(points: seq<Point>, v: Payload): (s: Step)
    ensures v.BuildAreaMod? && v.change == RemoveLocation ==>
      s.points == RemoveFirst(points, v.location) && s.built == None && s.written
    ensures !(v.BuildAreaMod? && v.change == RemoveLocation) ==> s == Apply(points, v)
  {
    match v
    case BuildAreaMod(RemoveLocation, p) => Step(RemoveFirst(points, p), None, true)
    case _ => Apply(points, v)
  }

  /** With the intended switch, withdrawing a tile undoes offering it: the list is back to what it held, as a multiset and, for a new tile, exactly. */
  lemma IntendedUndo(points: seq<Point>, p: Point)
    ensures var added := ApplyIntended(points, BuildAreaMod(AddLocation, p)).points;
      var removed := ApplyIntended(added, BuildAreaMod(RemoveLocation, p)).points;
      multiset(removed) == multiset(points) && (p !in points ==> removed == points)
  {
    var added := points + [p];
    assert p in added;
    if p !in points {
      assert IndexOf(added, p) == |points| by {
        assert added[|points|] == p && p !in added[..|points|];
        IndexOfUnique(added, p, |points|);
      }
      assert added[..|points|] == points;
    }
  }

  /** The first occurrence is the only index before which `x` does not occur. */
  lemma IndexOfUnique<T>(s: seq<T>, x: T, i: nat)
    requires i < |s| && s[i] == x && x !in s[..i]
    ensures IndexOf(s, x) == i
  {
  }

  /** The position of a tower on the tile `p`: the tile's coordinates as floats. */
  function Spot(p: Point): Vector2
  {
    Vector2(p.x as real, p.y as real)
  }

  /** The two behaviours that make up a tower. */
  datatype Tower = Tower(attack: Attack.AttackBehaviour, render: Render.RenderBehaviour)

  /** The behaviours of `towers` in the order they are announced: each tower's attack, then its render. */
  function Made(towers: seq<Tower>): (r: seq<object>)
    ensures |r| == 2 * |towers|
    ensures forall i :: 0 <= i < |towers| ==> r[2 * i] == towers[i].attack && r[2 * i + 1] == towers[i].render
  {
    if towers == [] then []
    else Made(towers[..|towers| - 1]) + [towers[|towers| - 1].attack, towers[|towers| - 1].render]
  }

  lemma MadeSnoc(towers: seq<Tower>, t: Tower)
    ensures Made(towers + [t]) == Made(towers) + [t.attack, t.render]
  {
    assert (towers + [t])[..|towers|] == towers;
  }

  /** The objects of a tower that say what it is: its behaviours and the signals its attack reads. */
  function Parts(t: Tower): set<object>
  {
    {t.attack, t.render, t.attack.position, t.attack.fireRate, t.attack.damage, t.attack.range}
  }

  /** `a` is the attack behaviour createTower builds on the tile `p`: aimed at `creeps`, fire rate 0.1, damage 4, range 2. */
  ghost predicate Armed(a: Attack.AttackBehaviour, p: Point, creeps: Signal)
    reads a.position, a.fireRate, a.damage, a.range
  {
    a.position.Read() == VectorValue(Spot(p)) && a.targets == creeps && a.fireRate.Read() == FloatValue(0.1) &&
    a.damage.Read() == FloatValue(4.0) && a.range.Read() == FloatValue(2.0)
  }

  /** `t` is a tower on the tile `p`: armed, and drawn at the attack's position with `tileSize` for `drawWatcher` alone. */
  ghost predicate Raised(t: Tower, p: Point, creeps: Signal, tileSize: Signal, drawWatcher: Sink)
    reads Parts(t)
  {
    Armed(t.attack, p, creeps) && t.render.position == t.attack.position &&
    t.render.tileSize == tileSize && t.render.sinks == {drawWatcher}
  }

  /** What stays true of a tower built on `p` while its factory runs on: its position, and how its two behaviours are wired. */
  ghost predicate Placed(t: Tower, p: Point, creeps: Signal, tileSize: Signal)
    reads t.attack.position
  {
    t.attack.position.Read() == VectorValue(Spot(p)) && t.attack.targets == creeps &&
    t.render.position == t.attack.position && t.render.tileSize == tileSize
  }

  lemma RaisedPlaced(t: Tower, p: Point, creeps: Signal, tileSize: Signal, drawWatcher: Sink)
    requires Raised(t, p, creeps, tileSize, drawWatcher)
    ensures Placed(t, p, creeps, tileSize)
  {
  }

  /** The attack half of createTower: the tile's position signal and the attack behaviour over it. */
  method BuildAttack(p: Point, creeps: Signal, now: int) returns (a: Attack.AttackBehaviour)
    ensures fresh(a) && fresh(a.position) && fresh(a.fireRate) && fresh(a.damage) && fresh(a.range)
    ensures Armed(a, p, creeps)
  {
    var position := new Signal(VectorValue(Spot(p)), now);
    var shooting := new Signal(BoolValue(true), now);
    var fireRate := new Signal(FloatValue(0.1), now);
    var damage := new Signal(FloatValue(4.0), now);
    var range := new Signal(FloatValue(2.0), now);
    a := new Attack.AttackBehaviour(shooting, creeps, position, fireRate, damage, range, NanosPerShot, now);
  }

  /** The render half of createTower: a render behaviour over `position`, shown from the start. */
  method BuildRender(position: Signal, tileSize: Signal, drawWatcher: Sink, now: int) returns (rb: Render.RenderBehaviour)
    ensures fresh(rb) && rb.position == position && rb.tileSize == tileSize && rb.sinks == {drawWatcher}
  {
    var visible := new Signal(BoolValue(true), now);
    rb := new Render.RenderBehaviour(visible, position, tileSize, drawWatcher, now);
  }

  /** The building half of createTower: the attack behaviour on the tile, then the render behaviour at its position. */
  method BuildTower(value: Point, creeps: Signal, tileSize: Signal, drawWatcher: Sink, now: int) returns (t: Tower)
    ensures fresh(Parts(t)) && Raised(t, value, creeps, tileSize, drawWatcher)
  {
    var ab := BuildAttack(value, creeps, now);
    var rb := BuildRender(ab.position, tileSize, drawWatcher, now);
    t := Tower(ab, rb);
  }

  class TowerFactoryBehaviour {
    const core: Behaviour
    const tileSize: Signal
    const creeps: Signal
    const drawWatcher: Sink
    const behaviourWatcher: Sink

    /**
     * TowerFactoryBehaviour(signal, tileSize, creeps, drawWatcher,
     * behaviourWatcher): the tile size and the creep list are its inputs,
     * in that order.
     */
    constructor (signal: Signal, tileSize: Signal, creeps: Signal, drawWatcher: Sink, behaviourWatcher: Sink, now: int)
      ensures fresh(core) && fresh(core.mailbox) && core.signal == signal && core.mailbox.events == []
      ensures core.inputs == [tileSize, creeps] && core.deltaThreshold == DefaultDeltaThreshold
      ensures this.tileSize == tileSize && this.creeps == creeps
      ensures this.drawWatcher == drawWatcher && this.behaviourWatcher == behaviourWatcher
    {
      core := new Behaviour("TowerFactoryBehaviour", signal, now);
      this.tileSize := tileSize;
      this.creeps := creeps;
      this.drawWatcher := drawWatcher;
      this.behaviourWatcher := behaviourWatcher;
      new;
      core.AddInput(tileSize);
      core.AddInput(creeps);
    }

    /**
     * createTower on the tile `value`: the attack behaviour is announced,
     * then the render behaviour, both with one birth time. `sent` are the
     * towers announced before this one. Building a behaviour changes
     * nothing the watcher holds, so both are built before the first
     * announcement.
     */
    method CreateTower(value: Point, now: int, ghost audience: set<Mailbox>, ghost base: map<Mailbox, seq<Event>>,
                       ghost sent: seq<Tower>) returns (t: Tower)
      requires audience == Reach(behaviourWatcher) && Announced(audience, base, Made(sent), now)
      modifies audience
      ensures Reach(behaviourWatcher) == audience && Announced(audience, base, Made(sent + [t]), now)
      ensures fresh(Parts(t)) && Raised(t, value, creeps, tileSize, drawWatcher)
    {
      t := BuildTower(value, creeps, tileSize, drawWatcher, now);
      label built:
      Announce(t.attack, now, audience, base, Made(sent));
      Announce(t.render, now, audience, base, Made(sent) + [t.attack]);
      assert unchanged@built(Parts(t));
      MadeSnoc(sent, t);
      assert Made(sent) + [t.attack] + [t.render] == Made(sent + [t]);
    }

    /** One NEW_BEHAVIOUR for `b`, handed to the behaviour watcher after the announcements of `made`. */
    method Announce(b: object, now: int, ghost audience: set<Mailbox>, ghost base: map<Mailbox, seq<Event>>,
                    ghost made: seq<object>)
      requires audience == Reach(behaviourWatcher) && Announced(audience, base, made, now)
      modifies audience
      ensures Reach(behaviourWatcher) == audience && Announced(audience, base, made + [b], now)
    {
      Deliver(behaviourWatcher, Event(b, Generic(NewBehaviour), Targetted, now));
      assert (made + [b])[..|made|] == made;
    }

    /**
     * The switch of doRun on the event `e` just polled: the list changes
     * as Apply says, and a tower built on the way is announced after those
     * of `sent`.
     */
    method Handle(e: Event, now: int, ghost audience: set<Mailbox>, ghost base: map<Mailbox, seq<Event>>,
                  ghost sent: seq<Tower>) returns (t: Option<Tower>)
      requires core.signal.Read().PointsValue? && audience == Reach(behaviourWatcher)
      requires Announced(audience, base, Made(sent), now)
      modifies core.signal, audience
      ensures Reach(behaviourWatcher) == audience
      ensures var s := Apply(old(core.signal.Read()).points, e.value);
        core.signal.Read() == PointsValue(s.points) &&
        core.signal.TimeStamp() == (if s.written then now else old(core.signal.TimeStamp())) &&
        (s.built.Some? <==> t.Some?) &&
        (t.Some? ==> fresh(Parts(t.value)) && Raised(t.value, s.built.value, creeps, tileSize, drawWatcher))
      ensures Announced(audience, base, Made(sent + ListedTower(t)), now)
    {
      if e.value.TowerSpawn? {
        t := SpawnAt(e.value.location, now, audience, base, sent);
      } else {
        Edit(e.value, now);
        t := None;
        assert sent + [] == sent;
      }
    }

    /** The BuildAreaModEvent arm of doRun's switch, and every other event that is not a TowerSpawnEvent. */
    method Edit(v: Payload, now: int)
      requires core.signal.Read().PointsValue? && !v.TowerSpawn?
      modifies core.signal
      ensures var s := Apply(old(core.signal.Read()).points, v);
        core.signal.Read() == PointsValue(s.points) &&
        core.signal.TimeStamp() == (if s.written then now else old(core.signal.TimeStamp()))
    {
      var c := core.signal.Read().points;
      match v
      case BuildAreaMod(AddLocation, p) =>
        core.signal.Write(PointsValue(c + [p]), now);
      case BuildAreaMod(RemoveLocation, p) =>
        core.signal.Write(PointsValue(c + [p]), now);
      case BuildAreaMod(RemoveAll, _) =>
        core.signal.Write(PointsValue([]), now);
      case _ =>
    }

    /** The TowerSpawnEvent arm of doRun's switch: a tower only on a listed tile, which then leaves the list once. */
    method SpawnAt(p: Point, now: int, ghost audience: set<Mailbox>, ghost base: map<Mailbox, seq<Event>>,
                   ghost sent: seq<Tower>) returns (t: Option<Tower>)
      requires core.signal.Read().PointsValue? && audience == Reach(behaviourWatcher)
      requires Announced(audience, base, Made(sent), now)
      modifies core.signal, audience
      ensures Reach(behaviourWatcher) == audience
      ensures var c := old(core.signal.Read()).points;
        (p in c <==> t.Some?) &&
        (p in c ==> core.signal.Read() == PointsValue(RemoveFirst(c, p)) && core.signal.TimeStamp() == now &&
                    fresh(Parts(t.value)) && Raised(t.value, p, creeps, tileSize, drawWatcher)) &&
        (p !in c ==> core.signal.Read() == old(core.signal.Read()) && core.signal.TimeStamp() == old(core.signal.TimeStamp()))
      ensures Announced(audience, base, Made(sent + ListedTower(t)), now)
    {
      var c := core.signal.Read().points;
      if p in c {
        var tower := CreateTower(p, now, audience, base, sent);
        core.signal.Write(PointsValue(RemoveFirst(c, p)), now);
        t := Some(tower);
      } else {
        t := None;
        assert sent + [] == sent;
      }
    }

    /**
     * Where doRun's loop stands, with `R` the run Drain predicts for the
     * whole mailbox: the towers built so far stand on `sites` and are
     * announced, `written` says whether the signal has been written, and
     * what is left of the mailbox will do the rest.
     */
    ghost predicate Progress(R: Run, stamp0: int, audience: set<Mailbox>, base: map<Mailbox, seq<Event>>, now: int,
                             sites: seq<Point>, written: bool, towers: seq<Tower>)
      reads core, core.signal, core.mailbox, audience, if behaviourWatcher.ToStream? then {behaviourWatcher.stream} else {}
      reads set i | 0 <= i < |towers| :: towers[i].attack.position
    {
      core.signal.Read().PointsValue? && Reach(behaviourWatcher) == audience && core.mailbox !in audience &&
      Pending(R, sites, written) &&
      core.signal.TimeStamp() == (if written then now else stamp0) &&
      Stands(towers, sites) && Announced(audience, base, Made(towers), now)
    }

    /** What is left of the mailbox, run on the list as it stands, completes the run `R` begun with `sites` built. */
    ghost predicate Pending(R: Run, sites: seq<Point>, written: bool)
      reads core, core.signal, core.mailbox
      requires core.signal.Read().PointsValue?
    {
      var D := Drain(core.signal.Read().points, core.mailbox.events);
      R == Run(D.points, sites + D.towers, written || D.written)
    }

    /** The towers stand on `sites`, one each, and none of their positions is the factory's signal. */
    ghost predicate Stands(towers: seq<Tower>, sites: seq<Point>)
      reads core, set i | 0 <= i < |towers| :: towers[i].attack.position
    {
      |towers| == |sites| &&
      forall i :: 0 <= i < |towers| ==> core.signal != towers[i].attack.position && Placed(towers[i], sites[i], creeps, tileSize)
    }

    /** A tower built and standing on the tile built on joins the towers that stand. */
    lemma StandsSnoc(towers: seq<Tower>, sites: seq<Point>, t: Option<Tower>, built: Option<Point>)
      requires Stands(towers, sites) && (built.Some? <==> t.Some?)
      requires t.Some? ==> core.signal != t.value.attack.position && Placed(t.value, built.value, creeps, tileSize)
      ensures Stands(towers + ListedTower(t), sites + Listed(built))
    {
      var towers', sites' := towers + ListedTower(t), sites + Listed(built);
      forall i | 0 <= i < |towers'|
        ensures core.signal != towers'[i].attack.position && Placed(towers'[i], sites'[i], creeps, tileSize)
      {
        if i < |towers| {
          assert towers'[i] == towers[i] && sites'[i] == sites[i];
        }
      }
    }

    /** One pass of doRun's loop: the head of the mailbox is polled and handled, and `t` is the tower it built, if any. */
    method Take(now: int, ghost R: Run, ghost stamp0: int, ghost audience: set<Mailbox>, ghost base: map<Mailbox, seq<Event>>,
                ghost sites: seq<Point>, ghost written: bool, towers: seq<Tower>)
      returns (ghost sites': seq<Point>, ghost written': bool, t: Option<Tower>)
      requires core.mailbox.events != []
      requires Progress(R, stamp0, audience, base, now, sites, written, towers)
      modifies core.mailbox, core.signal, audience
      ensures |core.mailbox.events| < old(|core.mailbox.events|)
      ensures Progress(R, stamp0, audience, base, now, sites', written', towers + ListedTower(t))
      ensures t.Some? ==> fresh(Parts(t.value))
    {
      ghost var c := core.signal.Read().points;
      ghost var q := core.mailbox.events;
      PendingStep(R, sites, written, c, q);
      var polled := core.mailbox.Poll();
      var e := polled.value;
      ghost var s := Apply(c, e.value);
      t := Handle(e, now, audience, base, towers);
      sites' := sites + Listed(s.built);
      written' := written || s.written;
      assert Pending(R, sites', written');
      assert Stands(towers, sites);
      if t.Some? {
        RaisedPlaced(t.value, s.built.value, creeps, tileSize, drawWatcher);
      }
      StandsSnoc(towers, sites, t, s.built);
    }

    /**
     * doRun, with `now` the clock reading: the whole mailbox is drained as
     * Drain says, one tower built per tile recorded in its towers, and the
     * answer is true. The behaviour watcher must not lead back to the
     * factory's own mailbox.
     */
    method DoRun(now: int) returns (r: bool, towers: seq<Tower>)
      requires core.signal.Read().PointsValue? && core.mailbox !in Reach(behaviourWatcher)
      modifies core.mailbox, core.signal, Reach(behaviourWatcher)
      ensures r && core.mailbox.events == []
      ensures Reach(behaviourWatcher) == old(Reach(behaviourWatcher))
      ensures var R := Drain(old(core.signal.Read()).points, old(core.mailbox.events));
        core.signal.Read() == PointsValue(R.points) &&
        core.signal.TimeStamp() == (if R.written then now else old(core.signal.TimeStamp())) &&
        |towers| == |R.towers| && forall i :: 0 <= i < |towers| ==> Placed(towers[i], R.towers[i], creeps, tileSize)
      ensures forall m :: m in Reach(behaviourWatcher) ==> m.events == old(m.events) + Births(Made(towers), now)
    {
      ghost var R := Drain(core.signal.Read().points, core.mailbox.events);
      ghost var stamp0 := core.signal.TimeStamp();
      ghost var audience := Reach(behaviourWatcher);
      ghost var base := map m | m in audience :: m.events;
      ghost var sites: seq<Point> := [];
      ghost var written := false;
      towers := [];
      ProgressBegins(R, stamp0, audience, base, now);
      while core.mailbox.events != []
        invariant Progress(R, stamp0, audience, base, now, sites, written, towers)
        decreases |core.mailbox.events|
      {
        var t;
        sites, written, t := Take(now, R, stamp0, audience, base, sites, written, towers);
        towers := towers + ListedTower(t);
      }
      ProgressEnds(R, stamp0, audience, base, now, sites, written, towers);
      return true, towers;
    }

    /** Before doRun's loop nothing is built and the whole mailbox is still to come. */
    lemma ProgressBegins(R: Run, stamp0: int, audience: set<Mailbox>, base: map<Mailbox, seq<Event>>, now: int)
      requires core.signal.Read().PointsValue? && core.mailbox !in audience && audience == Reach(behaviourWatcher)
      requires R == Drain(core.signal.Read().points, core.mailbox.events) && stamp0 == core.signal.TimeStamp()
      requires base == map m | m in audience :: m.events
      ensures Progress(R, stamp0, audience, base, now, [], false, [])
    {
      assert Made([]) == [] && Births([], now) == [];
      forall m | m in audience
        ensures m in base && m.events == base[m] + Births(Made([]), now)
      {
        assert base[m] + [] == base[m];
      }
    }

    /** Once the mailbox is empty, the loop has done the whole run `R`. */
    lemma ProgressEnds(R: Run, stamp0: int, audience: set<Mailbox>, base: map<Mailbox, seq<Event>>, now: int,
                       sites: seq<Point>, written: bool, towers: seq<Tower>)
      requires Progress(R, stamp0, audience, base, now, sites, written, towers) && core.mailbox.events == []
      ensures core.signal.Read() == PointsValue(R.points)
      ensures core.signal.TimeStamp() == (if R.written then now else stamp0)
      ensures |towers| == |R.towers| && forall i :: 0 <= i < |towers| ==> Placed(towers[i], R.towers[i], creeps, tileSize)
      ensures forall m :: m in audience ==> m in base && m.events == base[m] + Births(Made(towers), now)
    {
      assert sites + [] == sites;
    }

    /** call: the start and end times bracket doRun, whose answer it returns. */
    method Call(start: int, now: int, end: int) returns (r: bool)
      requires core.signal.Read().PointsValue? && core.mailbox !in Reach(behaviourWatcher)
      modifies core, core.mailbox, core.signal, Reach(behaviourWatcher)
      ensures r && core.mailbox.events == []
      ensures core.lastStartTime == start && core.LastRunTime() == end - start
    {
      core.BeginRun(start);
      var towers;
      r, towers := DoRun(now);
      core.EndRun(end);
    }
  }

  /** The tower `t` names, as a sequence of zero or one towers. */
  function ListedTower(t: Option<Tower>): (r: seq<Tower>)
    ensures t.None? ==> r == []
    ensures t.Some? ==> r == [t.value]
  {
    if t.Some? then [t.value] else []
  }
}
