/**
 * CreepFactoryBehaviour: builds creeps. Its signal holds one pipe per live
 * creep, pairing the creep's position signal with the creep's stream. A
 * CreepSpawn event builds the six behaviours of a new creep, announces each
 * to the behaviour watcher and adds the creep's pipe; a DEATH coming from a
 * creep stream drops that creep's pipes and FORGET_ALL drops every pipe.
 */
module CreepFactory {
  import opened Base
  import opened Events
  import opened Signals
  import opened Behaviours
  import opened SchedulingSpec
  import Health
  import Waypoint
  import Collision
  import Render

  /** A DEATH whose source is a stream: the death of the creep that stream belongs to. */
  predicate Kills(e: Event)
  {
    e.value == Generic(Death) && e.source is Stream
  }

  /** The pipes of `l` that do not lead to the stream `st`, in their order. */
  function Prune(l: seq<Pipe>, st: Stream): seq<Pipe>
  {
    if l == [] then [] else (if l[0].sink == ToStream(st) then [] else [l[0]]) + Prune(l[1..], st)
  }

  /** A pipe survives pruning exactly when it does not lead to `st`, and nothing else is added. */
  lemma {:induction false} PruneMembers(l: seq<Pipe>, st: Stream)
    ensures |Prune(l, st)| <= |l|
    ensures forall p :: p in Prune(l, st) <==> p in l && p.sink != ToStream(st)
    ensures forall i :: 0 <= i < |Prune(l, st)| ==> Prune(l, st)[i].sink != ToStream(st)
  {
    if l != [] {
      PruneMembers(l[1..], st);
      assert forall p :: p in l <==> p == l[0] || p in l[1..];
    }
  }

  /** Pruning works pipe by pipe, so it distributes over concatenation and keeps the order. */
  lemma {:induction false} PruneAppend(a: seq<Pipe>, b: seq<Pipe>, st: Stream)
    ensures Prune(a + b, st) == Prune(a, st) + Prune(b, st)
  {
    if a == [] {
      assert a + b == b;
    } else {
      var head := if a[0].sink == ToStream(st) then [] else [a[0]];
      calc {
        Prune(a + b, st);
        { assert (a + b)[0] == a[0] && (a + b)[1..] == a[1..] + b; }
        head + Prune(a[1..] + b, st);
        { PruneAppend(a[1..], b, st); }
        head + (Prune(a[1..], st) + Prune(b, st));
        (head + Prune(a[1..], st)) + Prune(b, st);
      }
    }
  }

  /** A list with no pipe to `st` is left alone. */
  lemma {:induction false} PruneNone(l: seq<Pipe>, st: Stream)
    requires forall i :: 0 <= i < |l| ==> l[i].sink != ToStream(st)
    ensures Prune(l, st) == l
  {
    if l != [] {
      PruneNone(l[1..], st);
    }
  }

  /** A second DEATH from the same creep changes nothing. */
  lemma PruneTwice(l: seq<Pipe>, st: Stream)
    ensures Prune(Prune(l, st), st) == Prune(l, st)
  {
    PruneMembers(l, st);
    PruneNone(Prune(l, st), st);
  }

  /** A creep added and then reported dead leaves the list as it found it. */
  lemma SpawnThenDeath(l: seq<Pipe>, position: Signal, st: Stream)
    requires forall i :: 0 <= i < |l| ==> l[i].sink != ToStream(st)
    ensures Prune(l + [Pipe(position, ToStream(st))], st) == l
  {
    PruneAppend(l, [Pipe(position, ToStream(st))], st);
    PruneNone(l, st);
    assert Prune([Pipe(position, ToStream(st))], st) == [];
  }

  /** The inner loop of the DEATH case: the list is walked from the back and every pipe to `st` is removed. */
  method PruneFromBack(l: seq<Pipe>, st: Stream) returns (r: seq<Pipe>)
    ensures r == Prune(l, st)
  {
    r := l;
    var k := |l|;
    while k > 0
      invariant 0 <= k <= |l|
      invariant r == l[..k] + Prune(l[k..], st)
    {
      k := k - 1;
      assert l[k..][1..] == l[k + 1..];
      assert r[k] == l[k];
      if r[k].sink == ToStream(st) {
        r := r[..k] + r[k + 1..];
        assert r == l[..k] + Prune(l[k..], st) by {
          assert l[..k + 1][..k] == l[..k];
        }
      } else {
        assert l[..k + 1] == l[..k] + [l[k]];
      }
    }
    assert l[0..] == l;
  }

  /** Where a creep is placed and the route it is to follow. */
  datatype Site = Site(position: Vector2, route: seq<CheckPoint>)

  /** The sites at which the mailbox `q` has creeps built: one per CreepSpawn with a route, up to the first without one. */
  function Sites(q: seq<Event>): seq<Site>
  {
    if q == [] then []
    else if q[0].value.CreepSpawn? then
      if q[0].value.waypoints == [] then [] else [Site(q[0].value.position, q[0].value.waypoints)] + Sites(q[1..])
    else Sites(q[1..])
  }

  /** What one doRun does: the pipes it leaves, what is left in the mailbox, how it ends and whether the signal was written. */
  datatype Run = Run(pipes: seq<Pipe>, rest: seq<Event>, outcome: Outcome, written: bool)

  /**
   * doRun over the mailbox `q`, the signal holding `pipes`: `born` are the
   * pipes of the creeps the run builds, in the order it builds them, and
   * `written` says whether the signal has been written yet. A CreepSpawn
   * without a route throws, the creep's first two behaviours already
   * announced, and the events behind it stay queued.
   */
  function Drain(pipes: seq<Pipe>, written: bool, q: seq<Event>, born: seq<Pipe>): Run
    requires |born| == |Sites(q)|
    decreases |q|
  {
    if q == [] then Run(pipes, [], Returned(true), written)
    else
      var e := q[0];
      if Kills(e) then Drain(Prune(pipes, e.source as Stream), true, q[1..], born)
      else if e.value == Generic(ForgetAll) then Drain([], true, q[1..], born)
      else if e.value.CreepSpawn? then
        if e.value.waypoints == [] then Run(pipes, q[1..], Threw, written)
        else Drain(pipes + [born[0]], true, q[1..], born[1..])
      else Drain(pipes, written, q[1..], born)
  }

  /** The CreepSpawn without a route, if `q` has one. */
  predicate Unrouted(q: seq<Event>)
  {
    exists i :: 0 <= i < |q| && q[i].value.CreepSpawn? && q[i].value.waypoints == []
  }

  /**
   * A run throws exactly when some CreepSpawn has no route; otherwise it
   * drains the mailbox and answers true. It never answers false.
   */
  lemma {:induction false} DrainOutcome(pipes: seq<Pipe>, written: bool, q: seq<Event>, born: seq<Pipe>)
    requires |born| == |Sites(q)|
    ensures var r := Drain(pipes, written, q, born);
      (r.outcome == Threw <==> Unrouted(q)) && (r.outcome != Threw ==> r.outcome == Returned(true) && r.rest == [])
    decreases |q|
  {
    if q != [] {
      var e := q[0];
      if e.value.CreepSpawn? && e.value.waypoints == [] {
        assert Unrouted(q);
      } else {
        var born' := if e.value.CreepSpawn? then born[1..] else born;
        var pipes' := if Kills(e) then Prune(pipes, e.source as Stream) else if e.value == Generic(ForgetAll) then []
                      else if e.value.CreepSpawn? then pipes + [born[0]] else pipes;
        var written' := if Kills(e) || e.value == Generic(ForgetAll) || e.value.CreepSpawn? then true else written;
        DrainOutcome(pipes', written', q[1..], born');
        if Unrouted(q) {
          var i :| 0 <= i < |q| && q[i].value.CreepSpawn? && q[i].value.waypoints == [];
          assert q[1..][i - 1] == q[i];
        }
        if Unrouted(q[1..]) {
          var i :| 0 <= i < |q[1..]| && q[1..][i].value.CreepSpawn? && q[1..][i].value.waypoints == [];
          assert q[i + 1] == q[1..][i];
        }
      }
    }
  }

  /** A run adds no pipe it did not build: every pipe it leaves was in the list already or is one of `born`. */
  lemma {:induction false} DrainOnlyBuilt(pipes: seq<Pipe>, written: bool, q: seq<Event>, born: seq<Pipe>)
    requires |born| == |Sites(q)|
    ensures forall p :: p in Drain(pipes, written, q, born).pipes ==> p in pipes || p in born
    decreases |q|
  {
    if q != [] {
      var e := q[0];
      if Kills(e) {
        var st := e.source as Stream;
        PruneMembers(pipes, st);
        DrainOnlyBuilt(Prune(pipes, st), true, q[1..], born);
        assert Drain(pipes, written, q, born) == Drain(Prune(pipes, st), true, q[1..], born);
      } else if e.value == Generic(ForgetAll) {
        DrainOnlyBuilt([], true, q[1..], born);
      } else if e.value.CreepSpawn? {
        if e.value.waypoints != [] {
          DrainOnlyBuilt(pipes + [born[0]], true, q[1..], born[1..]);
          assert forall p :: p in born[1..] ==> p in born;
        }
      } else {
        DrainOnlyBuilt(pipes, written, q[1..], born);
      }
    }
  }

  /** An event that neither kills, forgets nor spawns without a route. */
  predicate Gentle(e: Event)
  {
    !Kills(e) && e.value != Generic(ForgetAll) && !(e.value.CreepSpawn? && e.value.waypoints == [])
  }

  /** With no DEATH from a stream, no FORGET_ALL and every spawn routed, the new creeps are appended in the order they are built. */
  lemma {:induction false} DrainAppends(pipes: seq<Pipe>, written: bool, q: seq<Event>, born: seq<Pipe>)
    requires |born| == |Sites(q)|
    requires forall i :: 0 <= i < |q| ==> Gentle(q[i])
    ensures Drain(pipes, written, q, born).pipes == pipes + born
    decreases |q|
  {
    if q != [] {
      assert Gentle(q[0]);
      if q[0].value.CreepSpawn? {
        DrainAppends(pipes + [born[0]], true, q[1..], born[1..]);
        assert pipes + [born[0]] + born[1..] == pipes + born;
      } else {
        DrainAppends(pipes, written, q[1..], born);
      }
    }
  }

  /** What an event other than a CreepSpawn does to the pipes. */
  function Effect(pipes: seq<Pipe>, e: Event): seq<Pipe>
  {
    if Kills(e) then Prune(pipes, e.source as Stream) else if e.value == Generic(ForgetAll) then [] else pipes
  }

  /** Whether an event other than a CreepSpawn writes the signal. */
  predicate Writes(e: Event)
  {
    Kills(e) || e.value == Generic(ForgetAll)
  }

  /** The first two behaviours spawnCreep builds for a creep, health and move, with the signals and the stream they share. */
  datatype Hatchling = Hatchling(health: Health.HealthBehaviour, move: Behaviour, hp: Signal, where: Signal,
                                 motion: Signal, stream: Stream)

  /**
   * All the behaviours spawnCreep builds for a creep: the hatchling's two,
   * then waypoint, velocity, collision and render, with the signals they
   * share.
   */
  datatype Creep = Creep(first: Hatchling, waypoint: Waypoint.WaypointBehaviour, velocity: Behaviour,
                         collision: Collision.CollisionBehaviour, render: Render.RenderBehaviour,
                         goal: Signal, speed: Signal, collided: Signal, radius: Signal, visible: Signal)

  /** The behaviours of a creep whose route is empty, in the order they are announced. */
  function Pair(k: Hatchling): seq<object>
  {
    [k.health, k.move]
  }

  /** The health and move behaviours of the creep `stub` names, if any. */
  function Stub(stub: Option<Hatchling>): seq<object>
  {
    if stub.Some? then Pair(stub.value) else []
  }

  /** The six behaviours of a creep, in the order they are built and announced. */
  function Six(c: Creep): seq<object>
  {
    [c.first.health, c.first.move, c.waypoint, c.velocity, c.collision, c.render]
  }

  /** The announcements for `creeps`, creep after creep. */
  function Broods(creeps: seq<Creep>): (r: seq<object>)
    ensures |r| == 6 * |creeps|
  {
    if creeps == [] then [] else Broods(creeps[..|creeps| - 1]) + Six(creeps[|creeps| - 1])
  }

  lemma BroodsSnoc(creeps: seq<Creep>, c: Creep)
    ensures Broods(creeps + [c]) == Broods(creeps) + Six(c)
  {
    assert (creeps + [c])[..|creeps|] == creeps;
  }

  /** The pipe the factory keeps for a creep: its position signal and its stream. */
  function PipeOf(c: Creep): Pipe
  {
    Pipe(c.first.where, ToStream(c.first.stream))
  }

  /** The pipes of `creeps`, in order. */
  function Pipes(creeps: seq<Creep>): (r: seq<Pipe>)
    ensures |r| == |creeps| && forall i :: 0 <= i < |creeps| ==> r[i] == PipeOf(creeps[i])
  {
    if creeps == [] then [] else Pipes(creeps[..|creeps| - 1]) + [PipeOf(creeps[|creeps| - 1])]
  }

  lemma PipesSnoc(creeps: seq<Creep>, c: Creep)
    ensures Pipes(creeps + [c]) == Pipes(creeps) + [PipeOf(c)]
  {
    assert (creeps + [c])[..|creeps|] == creeps;
  }

  /** The objects a hatchling is made of. */
  function HatchParts(k: Hatchling): set<object>
  {
    {k.health, k.health.core, k.move, k.hp, k.where, k.motion, k.stream}
  }

  /** The objects a creep is made of once it has hatched. */
  function GearParts(c: Creep): set<object>
  {
    {c.waypoint, c.waypoint.core, c.velocity, c.collision, c.collision.core, c.render, c.render.core,
     c.goal, c.speed, c.collided, c.radius, c.visible}
  }

  /** The objects a creep is made of. */
  function Parts(c: Creep): set<object>
  {
    HatchParts(c.first) + GearParts(c)
  }

  /**
   * `k` is how spawnCreep starts a creep at `position` for the controller
   * `controller`: a health behaviour on 64 hit points that reports to the
   * controller, and a move behaviour whose output is the position signal
   * and whose one input is the velocity, standing still.
   */
  ghost predicate Hatched(k: Hatchling, position: Vector2, controller: Mailbox)
    reads k.health.core, k.move, k.hp, k.where, k.motion
  {
    k.health.core.signal == k.hp && k.hp.Read() == FloatValue(64.0) &&
    k.health.creepStream == k.stream && k.health.controller == ToMailbox(controller) &&
    k.move.name == "MoveBehaviour" && k.move.signal == k.where && k.move.inputs == [k.motion] &&
    k.where.Read() == VectorValue(position) && k.motion.Read() == VectorValue(Vector2(0.0, 0.0))
  }

  /**
   * The links of `c` that never change once it is built: the waypoint
   * behaviour talks to the creep stream, the velocity behaviour is named
   * so, the collision behaviour tests the position against the goal with
   * the radius, and the render behaviour shows the position with `tileSize`.
   */
  predicate Linked(c: Creep, tileSize: Signal)
  {
    c.waypoint.creepStream == c.first.stream && c.velocity.name == "VelocityBehaviour" &&
    c.collision.position == c.first.where && c.collision.radius == c.radius && c.collision.collider == c.goal &&
    c.render.position == c.first.where && c.render.tileSize == tileSize
  }

  /** Appending a linked creep keeps every creep linked. */
  lemma LinkedSnoc(creeps: seq<Creep>, c: Creep, tileSize: Signal)
    requires forall i :: 0 <= i < |creeps| ==> Linked(creeps[i], tileSize)
    requires Linked(c, tileSize)
    ensures forall i :: 0 <= i < |creeps + [c]| ==> Linked((creeps + [c])[i], tileSize)
  {
  }

  /**
   * `c` is the creep spawnCreep builds at `site` for `controller`: hatched;
   * the waypoint behaviour writes the head of the route to the goal signal
   * and keeps the rest; the velocity behaviour (speed 1) drives the velocity
   * from the position, the goal and the speed; the collision behaviour
   * (radius 0.25, signal true) tests the position against the goal and
   * talks to the creep stream; the render behaviour (signal true) shows the
   * position with `tileSize` to `drawWatcher` alone. The creep stream is
   * heard by the controller and the six behaviours, and by no one else.
   */
  ghost predicate Wired(c: Creep, site: Site, controller: Mailbox, tileSize: Signal, drawWatcher: Sink)
    reads Parts(c)
  {
    match c
    case Creep(k, waypoint, velocity, collision, render, goal, speed, collided, radius, visible) =>
      Hatched(k, site.position, controller) && Linked(c, tileSize) && site.route != [] &&
      waypoint.core.signal == goal && goal.Read() == CheckPointValue(site.route[0]) &&
      waypoint.waypoints == site.route[1..] &&
      velocity.signal == k.motion && velocity.inputs == [k.where, goal, speed] && speed.Read() == FloatValue(1.0) &&
      collision.core.signal == collided && collided.Read() == BoolValue(true) &&
      radius.Read() == FloatValue(0.25) && collision.creepStream == Some(ToStream(k.stream)) &&
      render.core.signal == visible && visible.Read() == BoolValue(true) && render.sinks == {drawWatcher} &&
      k.stream.sinks == {controller, k.health.core.mailbox, k.move.mailbox, waypoint.core.mailbox,
                         velocity.mailbox, collision.core.mailbox, render.core.mailbox}
  }

  /**
   * The invariant of doRun's loop: starting on `pipes` with the mailbox `q`,
   * the run has taken the events of `q` in front of `rest` without
   * throwing, has built the creeps `born` and holds the pipes `held`.
   */
  ghost predicate Reaches(pipes: seq<Pipe>, written: bool, q: seq<Event>, born: seq<Pipe>,
                          held: seq<Pipe>, written': bool, rest: seq<Event>)
    decreases |q|
  {
    if |q| <= |rest| then q == rest && born == [] && held == pipes && written' == written
    else
      var e := q[0];
      if e.value.CreepSpawn? then
        e.value.waypoints != [] && born != [] &&
        Reaches(pipes + [born[0]], true, q[1..], born[1..], held, written', rest)
      else Reaches(Effect(pipes, e), Writes(e) || written, q[1..], born, held, written', rest)
  }

  /** Where the loop stands, the rest of the run decides the whole: the creeps built so far come first. */
  lemma {:induction false} ReachesDrain(pipes: seq<Pipe>, written: bool, q: seq<Event>, born: seq<Pipe>,
                                        held: seq<Pipe>, written': bool, rest: seq<Event>, future: seq<Pipe>)
    requires Reaches(pipes, written, q, born, held, written', rest) && |future| == |Sites(rest)|
    ensures |born + future| == |Sites(q)|
    ensures Drain(pipes, written, q, born + future) == Drain(held, written', rest, future)
    decreases |q|
  {
    if |q| <= |rest| {
      assert born + future == future;
    } else {
      var e := q[0];
      if e.value.CreepSpawn? {
        ReachesDrain(pipes + [born[0]], true, q[1..], born[1..], held, written', rest, future);
        assert (born + future)[0] == born[0] && (born + future)[1..] == born[1..] + future;
      } else {
        ReachesDrain(Effect(pipes, e), Writes(e) || written, q[1..], born, held, written', rest, future);
      }
    }
  }

  /** The loop takes one more event that is not a CreepSpawn. */
  lemma {:induction false} ReachesStep(pipes: seq<Pipe>, written: bool, q: seq<Event>, born: seq<Pipe>,
                                       held: seq<Pipe>, written': bool, rest: seq<Event>)
    requires Reaches(pipes, written, q, born, held, written', rest) && rest != [] && !rest[0].value.CreepSpawn?
    ensures Reaches(pipes, written, q, born, Effect(held, rest[0]), Writes(rest[0]) || written', rest[1..])
    decreases |q|
  {
    if |q| > |rest| {
      var e := q[0];
      if e.value.CreepSpawn? {
        ReachesStep(pipes + [born[0]], true, q[1..], born[1..], held, written', rest);
      } else {
        ReachesStep(Effect(pipes, e), Writes(e) || written, q[1..], born, held, written', rest);
      }
    }
  }

  /** The loop takes one more event, a CreepSpawn with a route, and builds the creep `p`. */
  lemma {:induction false} ReachesSpawn(pipes: seq<Pipe>, written: bool, q: seq<Event>, born: seq<Pipe>,
                                        held: seq<Pipe>, written': bool, rest: seq<Event>, p: Pipe)
    requires Reaches(pipes, written, q, born, held, written', rest) && rest != []
    requires rest[0].value.CreepSpawn? && rest[0].value.waypoints != []
    ensures Reaches(pipes, written, q, born + [p], held + [p], true, rest[1..])
    decreases |q|
  {
    if |q| > |rest| {
      var e := q[0];
      if e.value.CreepSpawn? {
        assert (born + [p])[0] == born[0] && (born + [p])[1..] == born[1..] + [p];
        ReachesSpawn(pipes + [born[0]], true, q[1..], born[1..], held, written', rest, p);
      } else {
        ReachesSpawn(Effect(pipes, e), Writes(e) || written, q[1..], born, held, written', rest, p);
      }
    } else {
      assert [] + [p] == [p];
    }
  }

  /**
   * The bookkeeping of doRun's loop: started on `pipes0` with the mailbox
   * `q`, it has taken the events in front of `rest` without throwing,
   * holds the pipes `held`, written when `written`, and has built `creeps`
   * at `sites`, with the pipes `born` and the announcements `announced`.
   */
  ghost predicate Along(q: seq<Event>, pipes0: seq<Pipe>, sites: seq<Site>, creeps: seq<Creep>, born: seq<Pipe>,
                        announced: seq<object>, held: seq<Pipe>, written: bool, rest: seq<Event>)
  {
    Reaches(pipes0, false, q, born, held, written, rest) && Sites(q) == sites + Sites(rest) &&
    |born| == |sites| && born == Pipes(creeps) && announced == Broods(creeps)
  }

  /**
   * The bookkeeping of doRun at its end, with `outcome` and `rest` left in
   * the mailbox: the run stands as Drain says, every site has its creep,
   * and a throw leaves the health and move behaviours of `stub` announced.
   */
  ghost predicate Done(q: seq<Event>, pipes0: seq<Pipe>, sites: seq<Site>, creeps: seq<Creep>, stub: Option<Hatchling>,
                       born: seq<Pipe>, announced: seq<object>, held: seq<Pipe>, written: bool, rest: seq<Event>,
                       outcome: Outcome)
  {
    |born| == |Sites(q)| && Sites(q) == sites &&
    Drain(pipes0, false, q, born) == Run(held, rest, outcome, written) &&
    born == Pipes(creeps) && announced == Broods(creeps) + Stub(stub) && (outcome == Threw <==> stub.Some?)
  }

  /** The loop takes a CreepSpawn with a route and builds the creep `c` for it. */
  lemma AlongSpawn(q: seq<Event>, pipes0: seq<Pipe>, sites: seq<Site>, creeps: seq<Creep>, born: seq<Pipe>,
                   announced: seq<object>, held: seq<Pipe>, written: bool, rest: seq<Event>, c: Creep)
    requires Along(q, pipes0, sites, creeps, born, announced, held, written, rest)
    requires rest != [] && rest[0].value.CreepSpawn? && rest[0].value.waypoints != []
    ensures Along(q, pipes0, sites + [Site(rest[0].value.position, rest[0].value.waypoints)], creeps + [c],
                  born + [PipeOf(c)], announced + Six(c), held + [PipeOf(c)], true, rest[1..])
  {
    ReachesSpawn(pipes0, false, q, born, held, written, rest, PipeOf(c));
    assert sites + Sites(rest) == (sites + [Site(rest[0].value.position, rest[0].value.waypoints)]) + Sites(rest[1..]);
    PipesSnoc(creeps, c);
    BroodsSnoc(creeps, c);
  }

  /** The loop takes a CreepSpawn without a route, after the health and move behaviours of `k`: the run ends, thrown. */
  lemma AlongStop(q: seq<Event>, pipes0: seq<Pipe>, sites: seq<Site>, creeps: seq<Creep>, born: seq<Pipe>,
                  announced: seq<object>, held: seq<Pipe>, written: bool, rest: seq<Event>, k: Hatchling)
    requires Along(q, pipes0, sites, creeps, born, announced, held, written, rest)
    requires rest != [] && rest[0].value.CreepSpawn? && rest[0].value.waypoints == []
    ensures Done(q, pipes0, sites, creeps, Some(k), born, announced + Pair(k), held, written, rest[1..], Threw)
  {
    ReachesDrain(pipes0, false, q, born, held, written, rest, []);
    assert born + [] == born && sites + [] == sites;
  }

  /** The loop takes any other event. */
  lemma AlongStep(q: seq<Event>, pipes0: seq<Pipe>, sites: seq<Site>, creeps: seq<Creep>, born: seq<Pipe>,
                  announced: seq<object>, held: seq<Pipe>, written: bool, rest: seq<Event>)
    requires Along(q, pipes0, sites, creeps, born, announced, held, written, rest)
    requires rest != [] && !rest[0].value.CreepSpawn?
    ensures Along(q, pipes0, sites, creeps, born, announced, Effect(held, rest[0]), Writes(rest[0]) || written, rest[1..])
  {
    ReachesStep(pipes0, false, q, born, held, written, rest);
  }

  /** The mailbox is empty: the run returns true. */
  lemma AlongEnd(q: seq<Event>, pipes0: seq<Pipe>, sites: seq<Site>, creeps: seq<Creep>, born: seq<Pipe>,
                 announced: seq<object>, held: seq<Pipe>, written: bool)
    requires Along(q, pipes0, sites, creeps, born, announced, held, written, [])
    ensures Done(q, pipes0, sites, creeps, None, born, announced, held, written, [], Returned(true))
  {
    ReachesDrain(pipes0, false, q, born, held, written, [], []);
    assert born + [] == born && sites + [] == sites && announced + [] == announced;
  }

  class CreepFactoryBehaviour {
    const core: Behaviour
    const tileSize: Signal
    const behaviourWatcher: Sink
    const drawWatcher: Sink

    /** CreepFactoryBehaviour(signal, tileSize, behaviourWatcher, drawWatcher): the tile size is the one input. */
    constructor (signal: Signal, tileSize: Signal, behaviourWatcher: Sink, drawWatcher: Sink, now: int)
      ensures fresh(core) && fresh(core.mailbox) && core.signal == signal && core.inputs == [tileSize]
      ensures core.mailbox.events == []
      ensures this.tileSize == tileSize && this.behaviourWatcher == behaviourWatcher && this.drawWatcher == drawWatcher
    {
      var b := new Behaviour("CreepFactoryBehaviour", signal, now);
      b.AddInput(tileSize);
      core := b;
      this.tileSize := tileSize;
      this.behaviourWatcher := behaviourWatcher;
      this.drawWatcher := drawWatcher;
    }

    /** isReady: the factory runs whenever an event waits, whatever the age of its inputs. */
    function IsReady(): (r: bool)
      reads core.mailbox
      ensures r <==> |core.mailbox.events| > 0
    {
      core.mailbox.events != []
    }

    /**
     * doRun, with `now` the clock reading: the mailbox is drained as Drain
     * says. `creeps` are the creeps built, one per site, in order, each
     * linked as Linked says, and `born` their pipes; `announced` are
     * the behaviours announced to the behaviour watcher: the six of each
     * creep in turn, then, for a creep whose route is empty, its health and
     * move behaviours (`stub`). The behaviour watcher must not lead back to
     * the factory's own mailbox.
     */
    method DoRun(now: int) returns (r: Outcome, born: seq<Pipe>, announced: seq<object>, creeps: seq<Creep>,
                                    stub: Option<Hatchling>)
      requires core.signal.Read().PipesValue? && core.mailbox !in Reach(behaviourWatcher)
      modifies core.mailbox, core.signal, Reach(behaviourWatcher)
      ensures Reach(behaviourWatcher) == old(Reach(behaviourWatcher))
      ensures |born| == |Sites(old(core.mailbox.events))|
      ensures var R := Drain(old(core.signal.Read()).pipes, false, old(core.mailbox.events), born);
        r == R.outcome && core.mailbox.events == R.rest && core.signal.Read() == PipesValue(R.pipes) &&
        core.signal.TimeStamp() == (if R.written then now else old(core.signal.TimeStamp()))
      ensures born == Pipes(creeps) && announced == Broods(creeps) + Stub(stub) && (r == Threw <==> stub.Some?)
      ensures forall i :: 0 <= i < |creeps| ==> Linked(creeps[i], tileSize)
      ensures stub.Some? ==> fresh(HatchParts(stub.value))
      ensures forall m :: m in Reach(behaviourWatcher) ==> m.events == old(m.events) + Births(announced, now)
    {
      ghost var q := core.mailbox.events;
      ghost var pipes0 := core.signal.Read().pipes;
      ghost var stamp0 := core.signal.TimeStamp();
      ghost var audience := Reach(behaviourWatcher);
      ghost var base := map m | m in audience :: m.events;
      ghost var written, sites;
      r, born, announced, creeps, stub, written, sites := Drive(now, q, pipes0, stamp0, audience, base);
    }

    /** The loop of doRun, from the state its ghost arguments record to the end Drain gives. */
    method Drive(now: int, ghost q: seq<Event>, ghost pipes0: seq<Pipe>, ghost stamp0: int, ghost audience: set<Mailbox>,
                 ghost base: map<Mailbox, seq<Event>>)
      returns (r: Outcome, born: seq<Pipe>, announced: seq<object>, creeps: seq<Creep>, stub: Option<Hatchling>,
               ghost written: bool, ghost sites: seq<Site>)
      requires Progress(q, pipes0, stamp0, audience, base, now, false, [], [], [], [], q)
      requires core.mailbox.events == q
      modifies core.mailbox, core.signal, audience
      ensures Ended(q, pipes0, stamp0, audience, base, now, written, sites, born, announced, creeps, stub, core.mailbox.events, r)
      ensures stub.Some? ==> fresh(HatchParts(stub.value))
    {
      written := false;
      sites := [];
      born := [];
      announced := [];
      creeps := [];
      stub := None;
      var threw := false;
      while !threw && core.mailbox.events != []
        invariant !threw ==> (stub == None &&
          Progress(q, pipes0, stamp0, audience, base, now, written, sites, born, announced, creeps, core.mailbox.events))
        invariant threw ==>
          Ended(q, pipes0, stamp0, audience, base, now, written, sites, born, announced, creeps, stub, core.mailbox.events, Threw)
        invariant stub.Some? ==> fresh(HatchParts(stub.value))
        decreases |core.mailbox.events|
      {
        threw, born, announced, written, sites, creeps, stub :=
          Take(now, q, pipes0, stamp0, audience, base, written, sites, born, announced, creeps);
      }
      r := if threw then Threw else Returned(true);
      if !threw {
        Finish(q, pipes0, stamp0, audience, base, now, written, sites, born, announced, creeps);
      }
    }

    /** doRun's loop ends with true once the mailbox is empty. */
    lemma Finish(q: seq<Event>, pipes0: seq<Pipe>, stamp0: int, audience: set<Mailbox>,
                 base: map<Mailbox, seq<Event>>, now: int, written: bool, sites: seq<Site>,
                 born: seq<Pipe>, announced: seq<object>, creeps: seq<Creep>)
      requires Progress(q, pipes0, stamp0, audience, base, now, written, sites, born, announced, creeps, [])
      ensures Ended(q, pipes0, stamp0, audience, base, now, written, sites, born, announced, creeps, None, [], Returned(true))
    {
      AlongEnd(q, pipes0, sites, creeps, born, announced, core.signal.Read().pipes, written);
    }

    /**
     * Where doRun's loop stands: started on the pipes `pipes0` stamped
     * `stamp0` with the mailbox `q`, it has built the creeps `creeps`, with
     * the pipes `born`, at `sites`, announced `announced`, written the
     * signal when `written`, and has `rest` still to take.
     */
    ghost predicate Progress(q: seq<Event>, pipes0: seq<Pipe>, stamp0: int, audience: set<Mailbox>,
                             base: map<Mailbox, seq<Event>>, now: int, written: bool, sites: seq<Site>,
                             born: seq<Pipe>, announced: seq<object>, creeps: seq<Creep>, rest: seq<Event>)
      reads core, core.signal, audience, if behaviourWatcher.ToStream? then {behaviourWatcher.stream} else {}
    {
      match core.signal.Read()
      case PipesValue(held) =>
        Reach(behaviourWatcher) == audience && core.mailbox !in audience &&
        Along(q, pipes0, sites, creeps, born, announced, held, written, rest) &&
        (forall i :: 0 <= i < |creeps| ==> Linked(creeps[i], tileSize)) &&
        core.signal.TimeStamp() == (if written then now else stamp0) && Announced(audience, base, announced, now)
      case _ => false
    }

    /**
     * One pass of doRun's loop: the head of the mailbox is taken and
     * handled. `threw` says that it was a CreepSpawn without a route, which
     * ends the run; otherwise the loop stands one event further on.
     */
    method Take(now: int, ghost q: seq<Event>, ghost pipes0: seq<Pipe>, ghost stamp0: int, ghost audience: set<Mailbox>,
                ghost base: map<Mailbox, seq<Event>>, ghost written: bool, ghost sites: seq<Site>,
                born: seq<Pipe>, announced: seq<object>, creeps: seq<Creep>)
      returns (threw: bool, born': seq<Pipe>, announced': seq<object>, ghost written': bool, ghost sites': seq<Site>,
               creeps': seq<Creep>, stub: Option<Hatchling>)
      requires core.mailbox.events != []
      requires Progress(q, pipes0, stamp0, audience, base, now, written, sites, born, announced, creeps, core.mailbox.events)
      modifies core.mailbox, core.signal, audience
      ensures |core.mailbox.events| < old(|core.mailbox.events|)
      ensures !threw ==> (stub == None &&
        Progress(q, pipes0, stamp0, audience, base, now, written', sites', born', announced', creeps', core.mailbox.events))
      ensures threw ==> ((stub.Some? ==> fresh(HatchParts(stub.value))) &&
        Ended(q, pipes0, stamp0, audience, base, now, written', sites', born', announced', creeps', stub, core.mailbox.events, Threw))
    {
      ghost var rest := core.mailbox.events;
      var polled := core.mailbox.Poll();
      var e := polled.value;
      if e.value.CreepSpawn? {
        threw, born', announced', written', sites', creeps', stub :=
          Breed(e, now, q, pipes0, stamp0, audience, base, written, sites, born, announced, creeps, rest);
      } else {
        Tend(e, now, q, pipes0, stamp0, audience, base, written, sites, born, announced, creeps, rest);
        threw, born', announced', sites', creeps', stub := false, born, announced, sites, creeps, None;
        written' := written || Writes(e);
      }
    }

    /** How doRun ends, with `outcome`: the run stands as Drain says, with every creep accounted for. */
    ghost predicate Ended(q: seq<Event>, pipes0: seq<Pipe>, stamp0: int, audience: set<Mailbox>,
                          base: map<Mailbox, seq<Event>>, now: int, written: bool, sites: seq<Site>,
                          born: seq<Pipe>, announced: seq<object>, creeps: seq<Creep>, stub: Option<Hatchling>,
                          rest: seq<Event>, outcome: Outcome)
      reads core, core.signal, audience, if behaviourWatcher.ToStream? then {behaviourWatcher.stream} else {}
    {
      match core.signal.Read()
      case PipesValue(held) =>
        Reach(behaviourWatcher) == audience &&
        Done(q, pipes0, sites, creeps, stub, born, announced, held, written, rest, outcome) &&
        (forall i :: 0 <= i < |creeps| ==> Linked(creeps[i], tileSize)) &&
        core.signal.TimeStamp() == (if written then now else stamp0) && Announced(audience, base, announced, now)
      case _ => false
    }

    /** The CreepSpawn case of doRun's loop, for the event `e` just taken from the head of `rest`. */
    method Breed(e: Event, now: int, ghost q: seq<Event>, ghost pipes0: seq<Pipe>, ghost stamp0: int, ghost audience: set<Mailbox>,
                 ghost base: map<Mailbox, seq<Event>>, ghost written: bool, ghost sites: seq<Site>,
                 born: seq<Pipe>, announced: seq<object>, creeps: seq<Creep>, ghost rest: seq<Event>)
      returns (threw: bool, born': seq<Pipe>, announced': seq<object>, ghost written': bool, ghost sites': seq<Site>,
               creeps': seq<Creep>, stub: Option<Hatchling>)
      requires rest != [] && rest[0] == e && e.value.CreepSpawn?
      requires Progress(q, pipes0, stamp0, audience, base, now, written, sites, born, announced, creeps, rest)
      modifies core.signal, audience
      ensures !threw ==> (stub == None &&
        Progress(q, pipes0, stamp0, audience, base, now, written', sites', born', announced', creeps', rest[1..]))
      ensures threw ==> ((stub.Some? ==> fresh(HatchParts(stub.value))) &&
        Ended(q, pipes0, stamp0, audience, base, now, written', sites', born', announced', creeps', stub, rest[1..], Threw))
    {
      ghost var pipes := core.signal.Read().pipes;
      var p, made, k, c := SpawnCreep(e.value.position, e.value.waypoints, now, audience, base, announced);
      announced' := announced + made;
      ghost var site := Site(e.value.position, e.value.waypoints);
      if c == None {
        AlongStop(q, pipes0, sites, creeps, born, announced, pipes, written, rest, k);
        return true, born, announced', written, sites, creeps, Some(k);
      }
      AlongSpawn(q, pipes0, sites, creeps, born, announced, pipes, written, rest, c.value);
      LinkedSnoc(creeps, c.value, tileSize);
      born' := born + [p.value];
      sites' := sites + [site];
      creeps' := creeps + [c.value];
      written' := true;
      threw, stub := false, None;
    }

    /** Every other case of doRun's loop, for the event `e` just taken from the head of `rest`. */
    method Tend(e: Event, now: int, ghost q: seq<Event>, ghost pipes0: seq<Pipe>, ghost stamp0: int, ghost audience: set<Mailbox>,
                ghost base: map<Mailbox, seq<Event>>, ghost written: bool, ghost sites: seq<Site>,
                ghost born: seq<Pipe>, ghost announced: seq<object>, ghost creeps: seq<Creep>, ghost rest: seq<Event>)
      requires rest != [] && rest[0] == e && !e.value.CreepSpawn?
      requires Progress(q, pipes0, stamp0, audience, base, now, written, sites, born, announced, creeps, rest)
      modifies core.signal
      ensures Progress(q, pipes0, stamp0, audience, base, now, written || Writes(e), sites, born, announced, creeps, rest[1..])
    {
      AlongStep(q, pipes0, sites, creeps, born, announced, core.signal.Read().pipes, written, rest);
      if e.value == Generic(Death) && e.source is Stream {
        Forget(e.source as Stream, now);
      } else if e.value == Generic(ForgetAll) {
        Clear(now);
      }
    }

    /** The DEATH case: the pipes to the dead creep's stream go and the list is written back at `now`. */
    method Forget(st: Stream, now: int)
      requires core.signal.Read().PipesValue?
      modifies core.signal
      ensures core.signal.Read() == PipesValue(Prune(old(core.signal.Read()).pipes, st)) && core.signal.TimeStamp() == now
    {
      var temp := PruneFromBack(core.signal.Read().pipes, st);
      core.signal.Write(PipesValue(temp), now);
    }

    /** The FORGET_ALL case: the list is emptied and written back at `now`. */
    method Clear(now: int)
      modifies core.signal
      ensures core.signal.Read() == PipesValue([]) && core.signal.TimeStamp() == now
    {
      core.signal.Write(PipesValue([]), now);
    }

    /** The NEW_BEHAVIOUR announcements of `made`, in order, each seen as one more behaviour at the end of `sent`. */
    method AnnounceAll(made: seq<object>, now: int, ghost audience: set<Mailbox>, ghost base: map<Mailbox, seq<Event>>,
                       ghost sent: seq<object>)
      requires audience == Reach(behaviourWatcher) && Announced(audience, base, sent, now)
      modifies audience
      ensures Reach(behaviourWatcher) == audience && Announced(audience, base, sent + made, now)
    {
      for i := 0 to |made|
        invariant Reach(behaviourWatcher) == audience && Announced(audience, base, sent + made[..i], now)
      {
        Deliver(behaviourWatcher, Event(made[i], Generic(NewBehaviour), Targetted, now));
        assert (sent + made[..i + 1])[..|sent + made[..i]|] == sent + made[..i];
      }
      assert made[..|made|] == made;
    }

    /**
     * spawnCreep for a creep at `position` on the route `ws`: a fresh
     * stream reporting to the factory, then the health, move, waypoint,
     * velocity, collision and render behaviours, wired as Wired says and
     * announced to the behaviour watcher in the order they are built, and
     * finally the creep's pipe appended to the list. An empty route stops
     * the construction at the waypoint behaviour, once the health and move
     * behaviours are announced, with the list untouched. Building a
     * behaviour changes nothing the watcher holds, so the announcements are
     * made once the building is done.
     */
    method SpawnCreep(position: Vector2, ws: seq<CheckPoint>, now: int, ghost audience: set<Mailbox>,
                      ghost base: map<Mailbox, seq<Event>>, ghost sent: seq<object>)
      returns (p: Option<Pipe>, made: seq<object>, k: Hatchling, c: Option<Creep>)
      requires core.signal.Read().PipesValue? && audience == Reach(behaviourWatcher) && core.mailbox !in audience
      requires Announced(audience, base, sent, now)
      modifies core.signal, audience
      ensures Reach(behaviourWatcher) == audience && core.mailbox.events == old(core.mailbox.events)
      ensures ws == [] <==> c == None
      ensures c.Some? ==> c.value.first == k && p == Some(PipeOf(c.value)) && made == Six(c.value)
      ensures c.None? ==> p == None && made == Pair(k)
      ensures Announced(audience, base, sent + made, now)
      ensures fresh(HatchParts(k)) && Hatched(k, position, core.mailbox)
      ensures c.None? ==> k.stream.sinks == {core.mailbox, k.health.core.mailbox, k.move.mailbox}
      ensures c.Some? ==> fresh(Parts(c.value)) && Wired(c.value, Site(position, ws), core.mailbox, tileSize, drawWatcher)
      ensures c.Some? ==> Linked(c.value, tileSize)
      ensures p.Some? ==> core.signal.Read() == PipesValue(old(core.signal.Read()).pipes + [p.value]) &&
                          core.signal.TimeStamp() == now
      ensures p.None? ==> core.signal.Read() == old(core.signal.Read()) && core.signal.TimeStamp() == old(core.signal.TimeStamp())
    {
      k, c := Build(position, ws, core.mailbox, tileSize, drawWatcher, now);
      made := if c.Some? then Six(c.value) else Pair(k);
      p := if c.Some? then Some(PipeOf(c.value)) else None;
      Publish(made, p, now, audience, base, sent, if c.Some? then Parts(c.value) else HatchParts(k));
    }

    /**
     * The end of spawnCreep: the announcements of `made`, then, when there
     * is one, the pipe `p` appended to the list. Nothing in `keep`, which
     * the watcher does not hold, changes.
     */
    method Publish(made: seq<object>, p: Option<Pipe>, now: int, ghost audience: set<Mailbox>,
                   ghost base: map<Mailbox, seq<Event>>, ghost sent: seq<object>, ghost keep: set<object>)
      requires core.signal.Read().PipesValue? && audience == Reach(behaviourWatcher) && core.mailbox !in audience
      requires Announced(audience, base, sent, now)
      requires core.signal !in keep && forall m :: m in audience ==> m !in keep
      modifies core.signal, audience
      ensures Reach(behaviourWatcher) == audience && core.mailbox.events == old(core.mailbox.events)
      ensures Announced(audience, base, sent + made, now)
      ensures unchanged(keep)
      ensures p.Some? ==> core.signal.Read() == PipesValue(old(core.signal.Read()).pipes + [p.value]) &&
                          core.signal.TimeStamp() == now
      ensures p.None? ==> core.signal.Read() == old(core.signal.Read()) && core.signal.TimeStamp() == old(core.signal.TimeStamp())
    {
      AnnounceAll(made, now, audience, base, sent);
      if p.Some? {
        core.signal.Write(PipesValue(core.signal.Read().pipes + [p.value]), now);
      }
    }
  }

  /**
   * The building half of spawnCreep, for a creep at `position` on the route
   * `ws` whose stream reports to `controller`: the hatchling, then, when
   * the route is not empty, the rest of the creep. Everything is new.
   */
  method Build(position: Vector2, ws: seq<CheckPoint>, controller: Mailbox, tileSize: Signal, drawWatcher: Sink, now: int)
    returns (k: Hatchling, c: Option<Creep>)
    ensures fresh(HatchParts(k)) && Hatched(k, position, controller)
    ensures ws == [] <==> c == None
    ensures c.None? ==> k.stream.sinks == {controller, k.health.core.mailbox, k.move.mailbox}
    ensures c.Some? ==> c.value.first == k && fresh(Parts(c.value)) &&
                        Wired(c.value, Site(position, ws), controller, tileSize, drawWatcher)
  {
    k := Hatch(position, controller, now);
    if ws == [] {
      return k, None;
    }
    var creep := Equip(k, ws, position, controller, tileSize, drawWatcher, now);
    c := Some(creep);
  }

  /**
   * The first part of spawnCreep: the creep stream, subscribed to by the
   * controller, the health behaviour on 64 hit points, and the move
   * behaviour over the position, placed at `position`, and the velocity,
   * standing still. These are the two behaviours built before the goal
   * signal is made from the head of the route.
   */
  method Hatch(position: Vector2, controller: Mailbox, now: int) returns (k: Hatchling)
    ensures fresh(HatchParts(k)) && Hatched(k, position, controller)
    ensures k.stream.sinks == {controller, k.health.core.mailbox, k.move.mailbox}
  {
    var creepStream := new Stream();
    creepStream.AddSink(controller);
    var hp := new Signal(FloatValue(64.0), now);
    var h := new Health.HealthBehaviour(hp, creepStream, ToMailbox(controller), now);
    var where := new Signal(VectorValue(position), now);
    var motion := new Signal(VectorValue(Vector2(0.0, 0.0)), now);
    var m := Follower("MoveBehaviour", where, [motion], creepStream, now);
    k := Hatchling(h, m, hp, where, motion, creepStream);
  }

  /**
   * The rest of spawnCreep once the route is known not to be empty: the
   * waypoint and velocity behaviours, then the collision and render
   * behaviours, each listening on the creep stream.
   */
  method Equip(k: Hatchling, ws: seq<CheckPoint>, ghost position: Vector2, ghost controller: Mailbox, tileSize: Signal,
               drawWatcher: Sink, now: int) returns (c: Creep)
    requires ws != [] && Hatched(k, position, controller)
    requires k.stream.sinks == {controller, k.health.core.mailbox, k.move.mailbox}
    modifies k.stream
    ensures c.first == k && fresh(GearParts(c)) && Wired(c, Site(position, ws), controller, tileSize, drawWatcher)
  {
    var w, v, goal, speed := Steer(ws, k.where, k.motion, k.stream, now);
    var col, arb, collided, radius, visible := Embody(k.where, goal, k.stream, tileSize, drawWatcher, now);
    c := Creep(k, w, v, col, arb, goal, speed, collided, radius, visible);
  }

  /** The goal signal on the head of the route, then the waypoint and velocity (at speed 1) behaviours. */
  method Steer(ws: seq<CheckPoint>, where: Signal, motion: Signal, creepStream: Stream, now: int)
    returns (w: Waypoint.WaypointBehaviour, v: Behaviour, goal: Signal, speed: Signal)
    requires ws != []
    modifies creepStream
    ensures fresh(w) && fresh(w.core) && fresh(v) && fresh(goal) && fresh(speed)
    ensures w.core.signal == goal && goal.Read() == CheckPointValue(ws[0]) && w.waypoints == ws[1..] &&
            w.creepStream == creepStream
    ensures v.name == "VelocityBehaviour" && v.signal == motion && v.inputs == [where, goal, speed] &&
            speed.Read() == FloatValue(1.0)
    ensures creepStream.sinks == old(creepStream.sinks) + {w.core.mailbox, v.mailbox}
  {
    goal := new Signal(CheckPointValue(ws[0]), now);
    w := new Waypoint.WaypointBehaviour(goal, ws, creepStream, now);
    speed := new Signal(FloatValue(1.0), now);
    v := Follower("VelocityBehaviour", motion, [where, goal, speed], creepStream, now);
  }

  /** The collision (radius 0.25) and render behaviours of a creep, the render one added to the creep stream. */
  method Embody(where: Signal, goal: Signal, creepStream: Stream, tileSize: Signal, drawWatcher: Sink, now: int)
    returns (c: Collision.CollisionBehaviour, arb: Render.RenderBehaviour, collided: Signal, radius: Signal, visible: Signal)
    modifies creepStream
    ensures fresh(c) && fresh(c.core) && fresh(arb) && fresh(arb.core) && fresh(collided) && fresh(radius) && fresh(visible)
    ensures c.core.signal == collided && collided.Read() == BoolValue(true) && c.position == where &&
            c.radius == radius && radius.Read() == FloatValue(0.25) && c.collider == goal &&
            c.creepStream == Some(ToStream(creepStream))
    ensures arb.core.signal == visible && visible.Read() == BoolValue(true) && arb.position == where &&
            arb.tileSize == tileSize && arb.sinks == {drawWatcher}
    ensures creepStream.sinks == old(creepStream.sinks) + {c.core.mailbox, arb.core.mailbox}
  {
    collided := new Signal(BoolValue(true), now);
    radius := new Signal(FloatValue(0.25), now);
    c := new Collision.CollisionBehaviour(collided, where, radius, goal, creepStream, now);
    visible := new Signal(BoolValue(true), now);
    arb := new Render.RenderBehaviour(visible, where, tileSize, drawWatcher, now);
    creepStream.AddSink(arb.core.mailbox);
  }

  /**
   * The move and velocity behaviours of a creep, reduced to what the
   * factory sets up: a behaviour with output `signal` and inputs `inputs`,
   * subscribed to the creep stream.
   */
  method Follower(name: string, signal: Signal, inputs: seq<Signal>, creepStream: Stream, now: int) returns (b: Behaviour)
    modifies creepStream
    ensures fresh(b) && fresh(b.mailbox) && b.name == name && b.signal == signal && b.inputs == inputs
    ensures creepStream.sinks == old(creepStream.sinks) + {b.mailbox}
  {
    b := new Behaviour(name, signal, now);
    b.AddInputs(inputs);
    creepStream.AddSink(b.mailbox);
  }
}
