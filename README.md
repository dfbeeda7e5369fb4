# BofSA: reactive task scheduler and behaviours, in Dafny

BofSA is a tower-defence game built on a reactive task scheduler. Every piece
of game logic is a *behaviour*. A behaviour owns an output signal, reads input
signals and drains an event mailbox in `doRun`. The scheduler hands ready
behaviours to worker threads, and a worker hands a behaviour back when its run
answers true.

This project models that core as sequential Dafny:

- the time-stamped `Signal` cell, and the `Behaviour` base state with its readiness test;
- mailboxes and event `Stream`s, which fan an event out to every subscribed sink;
- the `Scheduler` in its three modes (UNORDERED, ORDERED_RETRY, ORDERED_PRECOMPUTE) and the `WorkerThread` drain loop;
- the behaviours: spawn timer, waypoint route, health, edge-triggered collision, attack, render notifications, creep factory and tower factory;
- `Sprite` frame sequences, board tiles and tower placement (`GameLevel`, `GameLevelST`), `Logger` statistics, the command line of `BofSA.main`, and `CopyablePoint`.

Objects whose fields the Java code updates are Dafny classes, and their
methods carry `modifies` clauses. Each loop is a `while` or `for` loop with its
invariants. Each object operation is proved to do what a specification
function over values says:

- `SchedulingSpec.NextTask`, `Submit` and `Slice` for the scheduler;
- a `Drain` function for each behaviour's `doRun`;
- `Logging.Count`, `Combine` and `SortByStart` for the logger.

The lemmas state the properties the game relies on. No task is lost or
duplicated by the scheduler. Only ready tasks are handed out in the ordered
modes. The retry loop spins when no task is ready. A lethal hit kills a creep
in the same run. A collision is reported once per arrival. The shot loop keeps
the gun within one period of the clock. Prune removes exactly the dead creep's
pipes. Tiles are conserved by the tower factory. Merged statistics add up, and
merged log entries come out sorted.

The clock (`System.nanoTime`, `currentTimeMillis`) is an integer parameter of
each operation. One reading per run stands for the successive readings the
Java code takes. The geometric tests (distance to a waypoint, range of a
tower) are boolean parameters. `tryLock` is a boolean parameter. A task's
readiness, class name and last run time, as seen by the scheduler, come from a
`TaskView` parameter. The float fields of the game (hit points, the Logger's
mean and variance, positions) are Dafny `real`s. Counters are unbounded.

Module layout follows the Java files:

| module | file |
|---|---|
| Base | shared value shapes (vectors, checkpoints, points), sequence helpers |
| Signals | Signals/Signal.java |
| Events | Events/Event.java, Events/Stream.java, the mailbox of Behaviours/Behaviour.java |
| Behaviours | Behaviours/Behaviour.java |
| SchedulingSpec, Scheduling | Scheduler.java, WorkerThread.java |
| Health, Collision, Waypoint, Attack, Render, Spawn, CreepFactory, TowerFactory | the matching Behaviours/*.java |
| Sprites | Sprite.java |
| GameLevel, GameLevelST | GameLevel.java, GameLevelST.java |
| Logging | Logger.java |
| CommandLine | BofSA.java (main) |
| CopyablePoints | CopyablePoint.java |

Where files disagree, each is modelled as written:

- TowerFactoryBehaviour, SpawnBehaviour and WaypointBehaviour call `super(signal)`. Behaviours/Behaviour.java declares only `(String, Signal)`, so the model passes the class's simple name, as the other behaviours do.
- The scheduler's `mode` is a field with the default ORDERED_PRECOMPUTE (Scheduler.java:105), so all three modes are modelled.
- CreepFactoryBehaviour.java:172-175 builds the move behaviour with three arguments `(position, velocity, creepStream)`, but Behaviours/MoveBehaviour.java:43 declares four, `(targetPosition, position, velocity, creepStream)`, and adds both `position` and `velocity` as inputs. No reading is as written. The model takes the three-argument call at face value: the position signal is the output and the velocity its one input (`k.move.inputs == [k.motion]` in `CreepFactory.Hatched`). The older root-package CreepFactory.java:90 passes the position twice, which would make the inputs `[position, velocity]` instead.
- `doRun` of TowerFactoryBehaviour and `prevFrame` of Sprite follow the code as written. The evidently intended versions sit beside them (see Findings).

## Model

| member | source | states |
|---|---|---|
| Signals.Signal.constructor | BofSA/src/au/edu/csu/bofsa/Signals/Signal.java:37-43 | A new signal reads back the value and time stamp it was given. |
| Signals.Signal.Write | BofSA/src/au/edu/csu/bofsa/Signals/Signal.java:45-52 | After a write, read returns the written value and getTimeStamp the written stamp, whatever stamp was held before; no monotonicity check. |
| Signals.Signal.Read | BofSA/src/au/edu/csu/bofsa/Signals/Signal.java:54-56 | read: the value of the last write; Write and the constructor state what it returns. |
| Signals.Signal.TimeStamp | BofSA/src/au/edu/csu/bofsa/Signals/Signal.java:58-60 | getTimeStamp: the stamp of the last write; Write and the constructor state what it returns. |
| Behaviours.Behaviour.constructor | BofSA/src/au/edu/csu/bofsa/Behaviours/Behaviour.java:57-67 | A new behaviour has its name and signal, no inputs, a fresh empty mailbox, deltaThreshold 100000 and a last run time of 0. |
| Behaviours.Behaviour.AddInput | BofSA/src/au/edu/csu/bofsa/Behaviours/Behaviour.java:69-71 | The input joins the tail of the input list; nothing else changes. |
| Behaviours.Behaviour.AddInputs | BofSA/src/au/edu/csu/bofsa/Behaviours/Behaviour.java:73-75 | The inputs join the tail of the input list in order; nothing else changes. |
| Behaviours.Behaviour.SetSignal | BofSA/src/au/edu/csu/bofsa/Behaviours/Behaviour.java:81-85 | The previous signal is returned and the new one installed; nothing else changes. |
| Behaviours.Behaviour.HandleEvent | BofSA/src/au/edu/csu/bofsa/Behaviours/Behaviour.java:109-112 | The event joins the tail of the mailbox, so events are drained in arrival order. |
| Behaviours.Behaviour.BeginRun | BofSA/src/au/edu/csu/bofsa/Behaviours/Behaviour.java:88-89 | call() records the start time before doRun; nothing else changes. |
| Behaviours.Behaviour.EndRun | BofSA/src/au/edu/csu/bofsa/Behaviours/Behaviour.java:104-122 | call() records the end time after doRun; getLastRunTime is then end minus start. |
| Behaviours.Behaviour.LastRunTime | BofSA/src/au/edu/csu/bofsa/Behaviours/Behaviour.java:120-122 | getLastRunTime: the end of the last run minus its start; EndRun states its value after a run. |
| Behaviours.Behaviour.IsReady | BofSA/src/au/edu/csu/bofsa/Behaviours/Behaviour.java:128-136 | True exactly when no input lags the output signal by more than deltaThreshold (so always true with no inputs); when false, a stale input is named. |
| Behaviours.Births | BofSA/src/au/edu/csu/bofsa/Behaviours/CreepFactoryBehaviour.java:161-245 | One targetted NEW_BEHAVIOUR per behaviour built, in build order, all with the same birth time. |
| Events.Mailbox.constructor | BofSA/src/au/edu/csu/bofsa/Behaviours/Behaviour.java:64 | A new mailbox is empty. |
| Events.Mailbox.HandleEvent | BofSA/src/au/edu/csu/bofsa/Behaviours/Behaviour.java:110-112 | offer: the event goes to the tail of the queue. |
| Events.Mailbox.Poll | BofSA/src/au/edu/csu/bofsa/Behaviours/HealthBehaviour.java:57 | poll: the head of a non-empty queue is returned and removed; an empty queue yields nothing and stays empty. |
| Events.Stream.constructor | BofSA/src/au/edu/csu/bofsa/Events/Stream.java:37-39 | A new stream has no sinks. |
| Events.Stream.AddSink | BofSA/src/au/edu/csu/bofsa/Events/Stream.java:41-44 | Set semantics: the sink set gains the sink, and adding it twice keeps one. |
| Events.Stream.RemoveSink | BofSA/src/au/edu/csu/bofsa/Events/Stream.java:46-49 | The sink leaves the set; removing an absent one changes nothing. |
| Events.Stream.HandleEvent | BofSA/src/au/edu/csu/bofsa/Events/Stream.java:51-54 | Every subscribed mailbox gets the event exactly once; the sink set is unchanged. |
| Events.Stream.NotifySinks | BofSA/src/au/edu/csu/bofsa/Events/Stream.java:56-61 | Every subscribed mailbox gets the event exactly once and no other mailbox changes; the sink set is unchanged (with no sinks, nothing happens). |
| Events.FanOut | BofSA/src/au/edu/csu/bofsa/Events/Stream.java:57-61 | The loop over the sinks hands the event once to every mailbox of the set and to no other. |
| Events.Deliver | BofSA/src/au/edu/csu/bofsa/Events/Stream.java:58-59 | handleEvent on a sink, mailbox or stream: every mailbox it reaches gets the event exactly once. |
| Events.Publish | BofSA/src/au/edu/csu/bofsa/Events/Stream.java:56-61 | notifySinks over a set of sinks: each mailbox gets one copy per sink reaching it, and nothing reachable changes otherwise. |
| Health.DrainOutcome | BofSA/src/au/edu/csu/bofsa/Behaviours/HealthBehaviour.java:56-85 | A run answers true exactly when the mailbox drains without a DEATH; only a DEATH is reported to the controller, with the creep stream as its source. |
| Health.DrainNeverNegative | BofSA/src/au/edu/csu/bofsa/Behaviours/HealthBehaviour.java:71-81 | Hit points that start non-negative stay non-negative: a lethal hit writes 0. |
| Health.DeathEndsRun | BofSA/src/au/edu/csu/bofsa/Behaviours/HealthBehaviour.java:60-64 | A DEATH anywhere in the mailbox ends the run with false. |
| Health.LethalHitEndsRun | BofSA/src/au/edu/csu/bofsa/Behaviours/HealthBehaviour.java:51-85 | Subscribed to its own stream, a behaviour that broadcasts a DEATH receives it back and ends that same run with false. |
| Health.HealthBehaviour.constructor | BofSA/src/au/edu/csu/bofsa/Behaviours/HealthBehaviour.java:44-52 | A new health behaviour has an empty mailbox and no inputs, and its mailbox joins the creep stream's sinks. |
| Health.Drain | BofSA/src/au/edu/csu/bofsa/Behaviours/HealthBehaviour.java:55-86 | The reference definition of doRun: a DEATH ends the run with a report to the controller; a damage lowers the hit points, and a lethal one sets them to 0 and broadcasts a DEATH that comes back to the mailbox when it listens to the creep stream; anything else is dropped; an empty mailbox answers true. |
| Health.HealthBehaviour.IsReady | BofSA/src/au/edu/csu/bofsa/Behaviours/HealthBehaviour.java:88-90 | Ready exactly when the mailbox is not empty. |
| Health.HealthBehaviour.DoRun | BofSA/src/au/edu/csu/bofsa/Behaviours/HealthBehaviour.java:55-86 | The signal, the mailbox, the DEATHs broadcast to the creep stream's mailboxes and the report to the controller are exactly what the Drain function gives. |
| Health.HealthBehaviour.Hit | BofSA/src/au/edu/csu/bofsa/Behaviours/HealthBehaviour.java:65-81 | A damage event lowers the hit points by its amount; a lethal one broadcasts a DEATH stamped with the damage time and writes 0. |
| Health.HealthBehaviour.Call | BofSA/src/au/edu/csu/bofsa/Behaviours/Behaviour.java:88-107 | call returns doRun's answer, with the start and end times bracketing the run. |
| Collision.FirstDeath | BofSA/src/au/edu/csu/bofsa/Behaviours/CollisionBehaviour.java:72-80 | The position of the first DEATH in the mailbox, with none before it, or none at all. |
| Collision.Edge | BofSA/src/au/edu/csu/bofsa/Behaviours/CollisionBehaviour.java:85-98 | An event is sent exactly when the creep is inside while the signal was false; outside writes false, a first entry writes true, staying inside writes nothing. |
| Collision.EdgeRemembers | BofSA/src/au/edu/csu/bofsa/Behaviours/CollisionBehaviour.java:85-98 | After every test the signal says whether the creep is inside. |
| Collision.EdgeOnce | BofSA/src/au/edu/csu/bofsa/Behaviours/CollisionBehaviour.java:85-96 | Two runs inside the radius in a row send one event between them. |
| Collision.CollisionBehaviour.constructor | BofSA/src/au/edu/csu/bofsa/Behaviours/CollisionBehaviour.java:51-68 | The position is the one input, the creep stream is the sink, and the mailbox listens on the creep stream. |
| Collision.CollisionBehaviour.AddSink | BofSA/src/au/edu/csu/bofsa/Behaviours/CollisionBehaviour.java:103-106 | The single sink is replaced. |
| Collision.CollisionBehaviour.RemoveSink | BofSA/src/au/edu/csu/bofsa/Behaviours/CollisionBehaviour.java:108-111 | The sink is cleared, whichever sink is named. |
| Collision.CollisionBehaviour.NotifySinks | BofSA/src/au/edu/csu/bofsa/Behaviours/CollisionBehaviour.java:113-116 | Every mailbox the sink reaches gets the event once; with no sink the call throws. |
| Collision.CollisionBehaviour.DoRun | BofSA/src/au/edu/csu/bofsa/Behaviours/CollisionBehaviour.java:70-101 | A DEATH ends the run with false before any test, the events behind it left queued; otherwise the mailbox is drained and the test runs as Edge says. |
| Waypoint.DrainRoute | BofSA/src/au/edu/csu/bofsa/Behaviours/WaypointBehaviour.java:66-81 | The route is consumed from the front, one waypoint per collision; the signal ends on the last one taken; true only with the mailbox empty; DEATH broadcast only once the route has run out. |
| Waypoint.NoCollisionKeepsRoute | BofSA/src/au/edu/csu/bofsa/Behaviours/WaypointBehaviour.java:69-80 | A mailbox with no collision keeps the whole route and broadcasts nothing. |
| Waypoint.RouteExhausted | BofSA/src/au/edu/csu/bofsa/Behaviours/WaypointBehaviour.java:69-75 | A route of n waypoints absorbs n collisions; collision n + 1 broadcasts DEATH and ends the run. |
| Waypoint.WaypointBehaviour.constructor | BofSA/src/au/edu/csu/bofsa/Behaviours/WaypointBehaviour.java:45-59 | For a non-empty route: the first waypoint is written to the goal signal, the rest kept in order, and the mailbox listens on the creep stream. |
| Waypoint.WaypointBehaviour.DoRun | BofSA/src/au/edu/csu/bofsa/Behaviours/WaypointBehaviour.java:61-85 | Route, signal, mailbox, DEATH broadcast and answer are exactly what the Drain function gives. |
| Waypoint.Drain | BofSA/src/au/edu/csu/bofsa/Behaviours/WaypointBehaviour.java:61-85 | The reference definition of doRun: each collision takes the next waypoint off the front of the route and makes it the goal; a collision with no waypoint left broadcasts DEATH and ends the run with false, a DEATH received ends it with false, anything else is dropped. |
| Waypoint.WaypointBehaviour.Call | BofSA/src/au/edu/csu/bofsa/Behaviours/Behaviour.java:88-107 | call returns doRun's answer, with the start and end times bracketing the run. |
| Waypoint.Create | BofSA/src/au/edu/csu/bofsa/Behaviours/WaypointBehaviour.java:45-59 | An empty route throws before anything is written or subscribed; a non-empty one gives a fresh behaviour as the constructor says. |
| Attack.FirstNear | BofSA/src/au/edu/csu/bofsa/Behaviours/AttackBehaviour.java:80-93 | The index of the first target in range, with none in range before it, or none at all. |
| Attack.ShotsCatchUp | BofSA/src/au/edu/csu/bofsa/Behaviours/AttackBehaviour.java:78-94 | After the shot loop the gun is at most one period behind the clock. |
| Attack.ShotsCount | BofSA/src/au/edu/csu/bofsa/Behaviours/AttackBehaviour.java:78-94 | The shot count in closed form: one per whole period elapsed, the final partial period excepted. |
| Attack.AttackBehaviour.constructor | BofSA/src/au/edu/csu/bofsa/Behaviours/AttackBehaviour.java:50-66 | No inputs, so the behaviour is always ready; the signal is stamped one period before the clock so the first run may fire. |
| Attack.AttackBehaviour.DoRun | BofSA/src/au/edu/csu/bofsa/Behaviours/AttackBehaviour.java:68-101 | Each shot goes to the first target in range and moves the stamp on by one period; with no target the stamp becomes one period before the clock; the answer is true. |
| Attack.AttackBehaviour.Volley | BofSA/src/au/edu/csu/bofsa/Behaviours/AttackBehaviour.java:77-99 | Over the target list the run read, the loop fires Shots(now, last, period) shots at the first target in range, each target mailbox getting that many copies of the shot; with none in range the stamp moves up to one period before the clock. |
| Attack.AttackBehaviour.Shoot | BofSA/src/au/edu/csu/bofsa/Behaviours/AttackBehaviour.java:82-88 | One shot: the time stamp moves on by one period, the value is true, and every mailbox the target reaches gets the damage event once more. |
| Attack.AttackBehaviour.Call | BofSA/src/au/edu/csu/bofsa/Behaviours/Behaviour.java:88-107 | call returns true and leaves the gun at most one period behind the clock. |
| Attack.FirstInRange | BofSA/src/au/edu/csu/bofsa/Behaviours/AttackBehaviour.java:80-93 | The for/break loop over the targets finds what FirstNear names. |
| Render.DrainNotices | BofSA/src/au/edu/csu/bofsa/Behaviours/RenderBehaviour.java:133-154 | One ADD_DRAWABLE is broadcast per ADD_DRAWABLE received before any DEATH; one REMOVE_DRAWABLE follows exactly when the run ends with false; true means the mailbox is drained. |
| Render.RenderBehaviour.constructor | BofSA/src/au/edu/csu/bofsa/Behaviours/RenderBehaviour.java:69-95 | The draw watcher is the only sink, and an ADD_DRAWABLE addressed to the behaviour waits in its own mailbox. |
| Render.RenderBehaviour.AddSink | BofSA/src/au/edu/csu/bofsa/Behaviours/RenderBehaviour.java:112-115 | Set semantics: the sink joins the set. |
| Render.RenderBehaviour.RemoveSink | BofSA/src/au/edu/csu/bofsa/Behaviours/RenderBehaviour.java:124-127 | The sink leaves the set; an absent one changes nothing. |
| Render.RenderBehaviour.NotifySinks | BofSA/src/au/edu/csu/bofsa/Behaviours/RenderBehaviour.java:117-122 | Every mailbox gets one copy of the event per sink reaching it. |
| Render.RenderBehaviour.DoRun | BofSA/src/au/edu/csu/bofsa/Behaviours/RenderBehaviour.java:129-161 | The notifications of Drain reach every watching mailbox once per sink; a run that survives writes true at the clock reading, one ended by a DEATH writes nothing. |
| Render.Drain | BofSA/src/au/edu/csu/bofsa/Behaviours/RenderBehaviour.java:129-161 | The reference definition of doRun: each ADD_DRAWABLE is passed on as a broadcast ADD_DRAWABLE, the first DEATH becomes a broadcast REMOVE_DRAWABLE and ends the run with false, the rest is dropped. |
| Render.RenderBehaviour.Stamp | BofSA/src/au/edu/csu/bofsa/Behaviours/RenderBehaviour.java:156-160 | The signal is written true at the clock reading; no mailbox changes. |
| Render.RenderBehaviour.Pass | BofSA/src/au/edu/csu/bofsa/Behaviours/RenderBehaviour.java:133-154 | The drain loop sends the notifications of Drain in order and leaves the mailbox as Drain says. |
| Render.RenderBehaviour.Announce | BofSA/src/au/edu/csu/bofsa/Behaviours/RenderBehaviour.java:138-151 | One notifySinks is one more notification at the end of those already sent. |
| Spawn.BurstShape | BofSA/src/au/edu/csu/bofsa/Behaviours/SpawnBehaviour.java:109-125 | Spawns of one inner loop come one interval apart, the first one interval after the stamp; the stamp ends on the last; none is past the clock; the state-change value is untouched. |
| Spawn.BurstCount | BofSA/src/au/edu/csu/bofsa/Behaviours/SpawnBehaviour.java:107-121 | One inner loop spawns at most (now - stamp) / interval creeps. |
| Spawn.CycleSettles | BofSA/src/au/edu/csu/bofsa/Behaviours/SpawnBehaviour.java:86-137 | doRun stops idle only while less than a lull has passed since the last state change, and spawning only while less than a spawning phase has passed. |
| Spawn.CycleTimes | BofSA/src/au/edu/csu/bofsa/Behaviours/SpawnBehaviour.java:86-137 | The spawns of one run rise strictly, all after the starting stamp and up to where the stamp ends. |
| Spawn.BurstRises | BofSA/src/au/edu/csu/bofsa/Behaviours/SpawnBehaviour.java:109-121 | The spawns of one inner loop rise strictly and none lies past where the stamp ends. |
| Spawn.Requests | BofSA/src/au/edu/csu/bofsa/Behaviours/SpawnBehaviour.java:112-119 | One broadcast CreepSpawn per spawn time, in order, carrying the spawner's position and route. |
| Spawn.Burst | BofSA/src/au/edu/csu/bofsa/Behaviours/SpawnBehaviour.java:107-125 | The reference definition of the inner spawning loop; BurstShape, BurstCount and BurstRises state its properties. |
| Spawn.Advance | BofSA/src/au/edu/csu/bofsa/Behaviours/SpawnBehaviour.java:87-136 | The reference definition of one pass of the do/while loop: IDLE becomes SPAWNING once a lull has passed, SPAWNING spawns as Burst says and becomes IDLE once a spawning phase has passed. |
| Spawn.Cycle | BofSA/src/au/edu/csu/bofsa/Behaviours/SpawnBehaviour.java:83-140 | The reference definition of doRun: passes as Advance says until one does not go round again; CycleSettles and CycleTimes state its properties. |
| Spawn.CycleUnfold | BofSA/src/au/edu/csu/bofsa/Behaviours/SpawnBehaviour.java:86-137 | One pass of the do/while loop followed by the rest of doRun is doRun. |
| Spawn.SpawnBehaviour.constructor | BofSA/src/au/edu/csu/bofsa/Behaviours/SpawnBehaviour.java:59-81 | A new spawner is SPAWNING and its signal holds the clock reading as both value and time stamp. |
| Spawn.SpawnBehaviour.DoRun | BofSA/src/au/edu/csu/bofsa/Behaviours/SpawnBehaviour.java:83-140 | The timer moves as Cycle says, the creep builder hears one request per spawn in order, and the answer is true. |
| Spawn.SpawnBehaviour.Pass | BofSA/src/au/edu/csu/bofsa/Behaviours/SpawnBehaviour.java:86-136 | One pass of the do/while loop does what Advance says: the IDLE and SPAWNING transitions and the spawns between. |
| Spawn.SpawnBehaviour.Fire | BofSA/src/au/edu/csu/bofsa/Behaviours/SpawnBehaviour.java:109-125 | The inner loop moves the stamp and announces the spawns exactly as Burst says. |
| Spawn.BurstStep | BofSA/src/au/edu/csu/bofsa/Behaviours/SpawnBehaviour.java:109-125 | One spawn of the inner loop either ends the spawning phase with that spawn last, or leaves the rest of the burst starting one interval later. |
| Spawn.SpawnBehaviour.Request | BofSA/src/au/edu/csu/bofsa/Behaviours/SpawnBehaviour.java:110-119 | One spawn: the stamp moves on by one interval, the value stays, and the creep builder hears a request stamped with the new stamp. |
| Spawn.SpawnBehaviour.Mark | BofSA/src/au/edu/csu/bofsa/Behaviours/SpawnBehaviour.java:94-134 | The state-change writes of lines 98 and 131: the signal takes the new value and stamp, and no mailbox, stream, position or route changes. |
| CreepFactory.PruneMembers | BofSA/src/au/edu/csu/bofsa/Behaviours/CreepFactoryBehaviour.java:266-270 | A pipe survives exactly when it does not lead to the dead creep's stream; nothing is added. |
| CreepFactory.PruneAppend | BofSA/src/au/edu/csu/bofsa/Behaviours/CreepFactoryBehaviour.java:266-270 | Pruning goes pipe by pipe, so the survivors keep their order. |
| CreepFactory.PruneNone | BofSA/src/au/edu/csu/bofsa/Behaviours/CreepFactoryBehaviour.java:263-272 | A DEATH from a creep with no pipe leaves the list alone. |
| CreepFactory.PruneTwice | BofSA/src/au/edu/csu/bofsa/Behaviours/CreepFactoryBehaviour.java:263-272 | A second DEATH from the same creep changes nothing. |
| CreepFactory.SpawnThenDeath | BofSA/src/au/edu/csu/bofsa/Behaviours/CreepFactoryBehaviour.java:247-272 | A creep added and then reported dead leaves the list as it was. |
| CreepFactory.PruneFromBack | BofSA/src/au/edu/csu/bofsa/Behaviours/CreepFactoryBehaviour.java:264-272 | The backward removal loop leaves exactly the pipes Prune keeps, in order. |
| CreepFactory.Drain | BofSA/src/au/edu/csu/bofsa/Behaviours/CreepFactoryBehaviour.java:256-293 | The reference definition of doRun: a DEATH from a stream prunes its pipes, FORGET_ALL empties the list, a routed CreepSpawn appends the new creep's pipe, an unrouted one throws with the rest left queued; DrainOutcome, DrainOnlyBuilt and DrainAppends state its properties. |
| CreepFactory.DrainOutcome | BofSA/src/au/edu/csu/bofsa/Behaviours/CreepFactoryBehaviour.java:256-293 | A run throws exactly when some CreepSpawn has no route; otherwise it drains the mailbox and answers true; it never answers false. |
| CreepFactory.DrainOnlyBuilt | BofSA/src/au/edu/csu/bofsa/Behaviours/CreepFactoryBehaviour.java:256-293 | Every pipe left after a run was there before or belongs to a creep the run built. |
| CreepFactory.DrainAppends | BofSA/src/au/edu/csu/bofsa/Behaviours/CreepFactoryBehaviour.java:256-293 | With no DEATH from a stream, no FORGET_ALL and every spawn routed, the new creeps are appended in build order. |
| CreepFactory.CreepFactoryBehaviour.constructor | BofSA/src/au/edu/csu/bofsa/Behaviours/CreepFactoryBehaviour.java:64-73 | The tile size is the one input; the mailbox starts empty. |
| CreepFactory.CreepFactoryBehaviour.IsReady | BofSA/src/au/edu/csu/bofsa/Behaviours/CreepFactoryBehaviour.java:295-297 | Ready exactly when the mailbox is not empty. |
| CreepFactory.CreepFactoryBehaviour.DoRun | BofSA/src/au/edu/csu/bofsa/Behaviours/CreepFactoryBehaviour.java:256-293 | The pipes, the signal write and the outcome are what Drain gives. The creeps built are one per CreepSpawn handled, in order; their pipes are exactly the pipes added; each keeps its fixed links (Linked); the watcher hears, in order, the health, move, waypoint, velocity, collision and render behaviour of each creep, then the health and move behaviours of the unrouted creep that ended the run by throwing, if any. |
| CreepFactory.CreepFactoryBehaviour.Drive | BofSA/src/au/edu/csu/bofsa/Behaviours/CreepFactoryBehaviour.java:257-291 | The drain loop runs from its recorded state to the end Drain gives. |
| CreepFactory.CreepFactoryBehaviour.Take | BofSA/src/au/edu/csu/bofsa/Behaviours/CreepFactoryBehaviour.java:257-291 | One pass polls the head of the mailbox and handles it, or throws on an unrouted spawn. |
| CreepFactory.CreepFactoryBehaviour.Breed | BofSA/src/au/edu/csu/bofsa/Behaviours/CreepFactoryBehaviour.java:278-289 | The CreepSpawn case builds one creep and appends its pipe, or throws without a route. |
| CreepFactory.CreepFactoryBehaviour.Tend | BofSA/src/au/edu/csu/bofsa/Behaviours/CreepFactoryBehaviour.java:262-277 | Every other case changes the pipes as Effect says and writes the signal as Writes says. |
| CreepFactory.CreepFactoryBehaviour.Forget | BofSA/src/au/edu/csu/bofsa/Behaviours/CreepFactoryBehaviour.java:263-272 | The DEATH case writes back the pruned list at the clock reading. |
| CreepFactory.CreepFactoryBehaviour.Clear | BofSA/src/au/edu/csu/bofsa/Behaviours/CreepFactoryBehaviour.java:273-276 | The FORGET_ALL case writes back the empty list at the clock reading. |
| CreepFactory.CreepFactoryBehaviour.AnnounceAll | BofSA/src/au/edu/csu/bofsa/Behaviours/CreepFactoryBehaviour.java:161-245 | The behaviour watcher hears one NEW_BEHAVIOUR per behaviour, in order. |
| CreepFactory.CreepFactoryBehaviour.Publish | BofSA/src/au/edu/csu/bofsa/Behaviours/CreepFactoryBehaviour.java:161-251 | The watcher hears the behaviours in order; then, for a routed creep, the pipe is appended to the list at the clock reading; the creep's own objects are left alone. |
| CreepFactory.CreepFactoryBehaviour.SpawnCreep | BofSA/src/au/edu/csu/bofsa/Behaviours/CreepFactoryBehaviour.java:130-252 | With a route: the creep wired as Wired says, its six behaviours announced in the order health, move, waypoint, velocity, collision, render, and its pipe appended at the clock reading. With an empty route: only health and move announced, the stream listened to by the factory and those two, and the list untouched. |
| CreepFactory.Build | BofSA/src/au/edu/csu/bofsa/Behaviours/CreepFactoryBehaviour.java:148-238 | A fresh hatchling at the spawn site; with a route, the whole creep on new objects, wired as Wired says; with an empty route, no creep and a stream with the factory, health and move as its only listeners. |
| CreepFactory.Hatch | BofSA/src/au/edu/csu/bofsa/Behaviours/CreepFactoryBehaviour.java:148-182 | A new stream listened to by exactly the factory, health and move; health on 64 hit points reporting to the factory; move writing a new position signal at the spawn site from a new velocity signal at rest. |
| CreepFactory.Equip | BofSA/src/au/edu/csu/bofsa/Behaviours/CreepFactoryBehaviour.java:184-238 | On new objects: the goal signal on the first checkpoint, the waypoint behaviour over the rest of the route, velocity at speed 1 from position and goal, collision of radius 0.25 against the goal reporting on the creep stream, render over the position with the tile size and the draw watcher; the stream then has all seven listeners. |
| CreepFactory.Follower | BofSA/src/au/edu/csu/bofsa/Behaviours/CreepFactoryBehaviour.java:172-175 | A behaviour with the given output and inputs, subscribed to the creep stream. |
| CreepFactory.Steer | BofSA/src/au/edu/csu/bofsa/Behaviours/CreepFactoryBehaviour.java:184-212 | A new goal signal on the head of the route, the waypoint behaviour over the rest, and velocity (speed 1) over position, goal and speed; both subscribed to the creep stream. |
| CreepFactory.Embody | BofSA/src/au/edu/csu/bofsa/Behaviours/CreepFactoryBehaviour.java:214-238 | A new collision behaviour (radius 0.25, against the goal, reporting on the creep stream) and a new render behaviour over the position for the draw watcher; both subscribed to the creep stream. |
| CreepFactory.AlongSpawn | BofSA/src/au/edu/csu/bofsa/Behaviours/CreepFactoryBehaviour.java:278-289 | A routed CreepSpawn extends the loop's record by one site, one creep, its pipe and its six behaviours. |
| CreepFactory.AlongStop | BofSA/src/au/edu/csu/bofsa/Behaviours/CreepFactoryBehaviour.java:278-289 | An unrouted CreepSpawn ends the loop with Threw, the two behaviours of the stub as the last announcements. |
| CreepFactory.AlongStep | BofSA/src/au/edu/csu/bofsa/Behaviours/CreepFactoryBehaviour.java:262-277 | Any other event changes the record only by Effect and Writes. |
| CreepFactory.AlongEnd | BofSA/src/au/edu/csu/bofsa/Behaviours/CreepFactoryBehaviour.java:257-293 | An empty mailbox ends the loop with true and no stub. |
| TowerFactory.ApplyConserves | BofSA/src/au/edu/csu/bofsa/Behaviours/TowerFactoryBehaviour.java:189-219 | Apart from REMOVE_ALL, an event loses no tile and makes none: listed plus offered equals listed after plus built. |
| TowerFactory.DrainConserves | BofSA/src/au/edu/csu/bofsa/Behaviours/TowerFactoryBehaviour.java:183-222 | Without REMOVE_ALL, the tiles listed before plus those offered equal, as a multiset, the tiles left plus one per tower built. |
| TowerFactory.ApplyFromListed | BofSA/src/au/edu/csu/bofsa/Behaviours/TowerFactoryBehaviour.java:213-219 | An event builds only on a listed tile and lists only tiles listed or offered. |
| TowerFactory.DrainBuildsListed | BofSA/src/au/edu/csu/bofsa/Behaviours/TowerFactoryBehaviour.java:183-222 | Every tower is built on a tile that was listed before the run or offered during it. |
| TowerFactory.DrainWrites | BofSA/src/au/edu/csu/bofsa/Behaviours/TowerFactoryBehaviour.java:183-222 | The signal is written exactly when the run holds a BuildAreaModEvent or builds a tower. |
| TowerFactory.UnlistedSpawnIdle | BofSA/src/au/edu/csu/bofsa/Behaviours/TowerFactoryBehaviour.java:213-215 | A TowerSpawnEvent on an unlisted tile builds nothing and writes nothing. |
| TowerFactory.RemoveLocationAppends | BofSA/src/au/edu/csu/bofsa/Behaviours/TowerFactoryBehaviour.java:198-204 | As written, REMOVE_LOCATION appends the tile: it is listed once more than before. |
| TowerFactory.Apply | BofSA/src/au/edu/csu/bofsa/Behaviours/TowerFactoryBehaviour.java:189-219 | The reference definition of one event of doRun, as written: ADD_LOCATION and REMOVE_LOCATION append the tile, REMOVE_ALL empties the list, a TowerSpawnEvent on a listed tile builds there and takes the tile off once; anything else changes nothing. |
| TowerFactory.Drain | BofSA/src/au/edu/csu/bofsa/Behaviours/TowerFactoryBehaviour.java:183-222 | The reference definition of doRun: the events applied in order, the towers built listed in order, the signal written when any event writes it. |
| TowerFactory.AddThenRemoveKeeps | BofSA/src/au/edu/csu/bofsa/Behaviours/TowerFactoryBehaviour.java:190-204 | As written, a tile offered and then withdrawn stays listed. |
| TowerFactory.ApplyIntended | BofSA/src/au/edu/csu/bofsa/Behaviours/TowerFactoryBehaviour.java:198-204 | The intended REMOVE_LOCATION takes the first occurrence of the tile off the list; every other event as written. |
| TowerFactory.IntendedUndo | BofSA/src/au/edu/csu/bofsa/Behaviours/TowerFactoryBehaviour.java:198-204 | With the intended switch, withdrawing a tile undoes offering it, as a multiset and, for a new tile, exactly. |
| TowerFactory.BuildAttack | BofSA/src/au/edu/csu/bofsa/Behaviours/TowerFactoryBehaviour.java:167-172 | The attack behaviour of a new tower: on the tile, aimed at the creep list, fire rate 0.1, damage 4, range 2, on fresh signals. |
| TowerFactory.BuildRender | BofSA/src/au/edu/csu/bofsa/Behaviours/TowerFactoryBehaviour.java:176 | A render behaviour over the attack's position with the draw watcher as its one sink. |
| TowerFactory.BuildTower | BofSA/src/au/edu/csu/bofsa/Behaviours/TowerFactoryBehaviour.java:142-179 | The attack behaviour and then the render behaviour of one tower, all new objects. |
| TowerFactory.TowerFactoryBehaviour.constructor | BofSA/src/au/edu/csu/bofsa/Behaviours/TowerFactoryBehaviour.java:92-104 | The tile size and the creep list are the inputs, in that order; the mailbox starts empty. |
| TowerFactory.TowerFactoryBehaviour.CreateTower | BofSA/src/au/edu/csu/bofsa/Behaviours/TowerFactoryBehaviour.java:142-179 | Two NEW_BEHAVIOURs, attack then render, with one birth time, after those already sent. |
| TowerFactory.TowerFactoryBehaviour.Announce | BofSA/src/au/edu/csu/bofsa/Behaviours/TowerFactoryBehaviour.java:174-178 | One NEW_BEHAVIOUR after those already sent. |
| TowerFactory.TowerFactoryBehaviour.Handle | BofSA/src/au/edu/csu/bofsa/Behaviours/TowerFactoryBehaviour.java:186-220 | The switch on one event changes the list as Apply says and announces the tower built, if any. |
| TowerFactory.TowerFactoryBehaviour.Edit | BofSA/src/au/edu/csu/bofsa/Behaviours/TowerFactoryBehaviour.java:187-212 | A BuildAreaModEvent changes and writes the list as Apply says. |
| TowerFactory.TowerFactoryBehaviour.SpawnAt | BofSA/src/au/edu/csu/bofsa/Behaviours/TowerFactoryBehaviour.java:213-219 | A TowerSpawnEvent builds a tower only on a listed tile, which then leaves the list once. |
| TowerFactory.TowerFactoryBehaviour.Take | BofSA/src/au/edu/csu/bofsa/Behaviours/TowerFactoryBehaviour.java:183-221 | One pass of the loop polls and handles the head of the mailbox. |
| TowerFactory.TowerFactoryBehaviour.DoRun | BofSA/src/au/edu/csu/bofsa/Behaviours/TowerFactoryBehaviour.java:181-224 | The mailbox is drained as Drain says, one tower per tile built, announced attack then render, and the answer is true. |
| TowerFactory.TowerFactoryBehaviour.Call | BofSA/src/au/edu/csu/bofsa/Behaviours/Behaviour.java:88-107 | call returns true with the mailbox drained, the start and end times bracketing the run. |
| Base.RemoveFirst | BofSA/src/au/edu/csu/bofsa/Behaviours/TowerFactoryBehaviour.java:217 | List.remove(Object): the first occurrence goes and the rest keep their order; an absent element changes nothing. |
| SchedulingSpec.Bump | BofSA/src/au/edu/csu/bofsa/Scheduler.java:218-229 | The per-class counter goes up by one, created at 1 when absent; the other classes are untouched. |
| SchedulingSpec.BumpAllCounts | BofSA/src/au/edu/csu/bofsa/Scheduler.java:213-232 | Bumping once per skipped task counts, for each class, how many of its tasks were skipped. |
| SchedulingSpec.FirstReady | BofSA/src/au/edu/csu/bofsa/Scheduler.java:213-232 | The first ready task of the queue, with none ready before it, or the queue length when none is. |
| SchedulingSpec.PartitionSides | BofSA/src/au/edu/csu/bofsa/Scheduler.java:245-251 | The backward scan moves only ready tasks and leaves only unready ones. |
| SchedulingSpec.PartitionExact | BofSA/src/au/edu/csu/bofsa/Scheduler.java:245-251 | The scan loses and duplicates no waiting task. |
| SchedulingSpec.PromotedReversed | BofSA/src/au/edu/csu/bofsa/Scheduler.java:245-251 | The promoted tasks are the ready ones in reverse order. |
| SchedulingSpec.PartitionWaiting | BofSA/src/au/edu/csu/bofsa/Scheduler.java:245-251 | The scan splits the waiting list exactly: ready tasks promoted in reverse order, unready ones staying in order. |
| SchedulingSpec.RetryCycles | BofSA/src/au/edu/csu/bofsa/Scheduler.java:213-232 | With no ready task, the retry loop rotates the queue back to where it started, losing nothing: it never ends. |
| SchedulingSpec.RetryPoll | BofSA/src/au/edu/csu/bofsa/Scheduler.java:213-232 | ORDERED_RETRY hands out only a ready task; each skipped task is unready, moved to the tail in order and counted as a retry; null only for an empty queue; no return when nothing is ready. |
| SchedulingSpec.RetryConserves | BofSA/src/au/edu/csu/bofsa/Scheduler.java:213-232 | The retry poll keeps the multiset of held tasks plus the one returned. |
| SchedulingSpec.PrecomputePoll | BofSA/src/au/edu/csu/bofsa/Scheduler.java:234-259 | ORDERED_PRECOMPUTE always returns; without the lock only the head is taken; with it the unsorted queue is emptied, every waiting task left is unready, and a re-poll happens only after a null first poll. |
| SchedulingSpec.PrecomputeConserves | BofSA/src/au/edu/csu/bofsa/Scheduler.java:234-259 | The precompute poll keeps the multiset of held tasks plus the one returned. |
| SchedulingSpec.PollRetry | BofSA/src/au/edu/csu/bofsa/Scheduler.java:213-232 | The reference definition of ORDERED_RETRY's getNextTask: skip unready heads to the tail, counting a retry each, and hand out the first ready one; Spins when none is ready. RetryPoll, RetryConserves and RetryCycles state its properties. |
| SchedulingSpec.PollPrecompute | BofSA/src/au/edu/csu/bofsa/Scheduler.java:234-259 | The reference definition of ORDERED_PRECOMPUTE's getNextTask: poll; with the lock, move the unsorted tasks to the waiting list, promote the ready ones from the back, and poll again when the first poll was empty. PrecomputePoll and PrecomputeConserves state its properties. |
| SchedulingSpec.UnorderedPoll | BofSA/src/au/edu/csu/bofsa/Scheduler.java:207-211 | UNORDERED returns the head of the run queue without testing readiness and keeps every other task. |
| SchedulingSpec.NextTaskConserves | BofSA/src/au/edu/csu/bofsa/Scheduler.java:206-263 | In every mode a poll loses and duplicates no task. |
| SchedulingSpec.SubmitQueues | BofSA/src/au/edu/csu/bofsa/Scheduler.java:265-316 | Only a running scheduler accepts a task, counted once; it joins exactly one queue: the run queue, or under ORDERED_PRECOMPUTE the unsorted queue with the waiting count raised when unready. |
| SchedulingSpec.Submit | BofSA/src/au/edu/csu/bofsa/Scheduler.java:265-316 | The reference definition of call(c): a Behaviour handed to a running scheduler is counted and queued as the mode says; anything else leaves the state alone. SubmitQueues states its properties. |
| SchedulingSpec.Handoff | BofSA/src/au/edu/csu/bofsa/Scheduler.java:187-196 | The hand-off loop records one worker per task handed out. |
| SchedulingSpec.HandoffConserves | BofSA/src/au/edu/csu/bofsa/Scheduler.java:187-196 | What the scheduler held plus the task in hand is what it holds after, plus what it handed out, plus what is left. |
| SchedulingSpec.HandoffWorkers | BofSA/src/au/edu/csu/bofsa/Scheduler.java:187-196 | Idle workers are woken from the front of the idle queue, one per task; a task is left over only when none is left idle. |
| SchedulingSpec.SliceConserves | BofSA/src/au/edu/csu/bofsa/Scheduler.java:180-204 | A slice loses and duplicates no task, and a stopped scheduler hands out nothing. |
| SchedulingSpec.SliceIdle | BofSA/src/au/edu/csu/bofsa/Scheduler.java:180-204 | Idle workers are woken from the front of the idle queue; the caller joins its tail exactly when the scheduler runs, no task was left for it and the idle workers still waiting plus the caller are fewer than the threads; otherwise the idle queue is only shortened by the woken workers. |
| SchedulingSpec.Slice | BofSA/src/au/edu/csu/bofsa/Scheduler.java:180-204 | The reference definition of slice: nothing when stopped; otherwise a poll, the hand-off loop, and the caller joins the idle queue when no task was left and fewer than all but one worker are idle. SliceConserves and SliceIdle state its properties. |
| SchedulingSpec.InboxExact | BofSA/src/au/edu/csu/bofsa/Scheduler.java:187-196 | A worker receives exactly the tasks handed to it, in the order they were handed. |
| SchedulingSpec.Consumed | BofSA/src/au/edu/csu/bofsa/WorkerThread.java:51-63 | A drain pass takes no more tasks than the worker holds. |
| SchedulingSpec.DrainResubmits | BofSA/src/au/edu/csu/bofsa/WorkerThread.java:55-57 | A drain pass resubmits only tasks whose run returned true. |
| SchedulingSpec.DrainKeepsOrder | BofSA/src/au/edu/csu/bofsa/WorkerThread.java:52-63 | Conversely, every task run before any interrupt keeps its place: the pass resubmits what the tasks before it resubmit, then the task itself exactly when its run returned true, then what the tasks after it resubmit. |
| SchedulingSpec.Fed | BofSA/src/au/edu/csu/bofsa/WorkerThread.java:52-63 | The reference definition of what a drain pass hands the scheduler: for each run in turn, the behaviours it announced (handleEvent's NEW_BEHAVIOUR case calls call for each), then the task itself when its run returned true, each judged by the task view once that run is over; an interrupt ends the pass after the announcements of the interrupted run. |
| SchedulingSpec.FedQuiet | BofSA/src/au/edu/csu/bofsa/WorkerThread.java:52-63 | When no run announces anything and no run changes what the scheduler sees of the tasks, a drain pass submits exactly the resubmitted tasks, in order. |
| SchedulingSpec.FedFrame | BofSA/src/au/edu/csu/bofsa/WorkerThread.java:52-63 | A drain pass changes only the scheduler's queues and counters: its state, mode, threads, idle queue and worker count stay. |
| SchedulingSpec.DrainTakesAll | BofSA/src/au/edu/csu/bofsa/WorkerThread.java:51-63 | Without an interrupt a drain pass empties the worker's queue. |
| Scheduling.ZeroCounters | BofSA/src/au/edu/csu/bofsa/Scheduler.java:122-135 | startLogging's loops keep the counter map's classes and set every count to zero. |
| Scheduling.Scheduler.constructor | BofSA/src/au/edu/csu/bofsa/Scheduler.java:87-106 | A new scheduler is STOPPED, in ORDERED_PRECOMPUTE mode, with no threads, tasks or counts. |
| Scheduling.Scheduler.Start | BofSA/src/au/edu/csu/bofsa/Scheduler.java:108-120 | One new worker per processor is added, numWorkers is the thread count, the counters are zeroed and the state becomes RUNNING. |
| Scheduling.Scheduler.AddWorkers | BofSA/src/au/edu/csu/bofsa/Scheduler.java:109-114 | The thread loop adds one new worker per processor and changes nothing else. |
| Scheduling.Scheduler.Stop | BofSA/src/au/edu/csu/bofsa/Scheduler.java:137-152 | STOPPED, threads and run queue cleared; waiting, unsorted and idle queues untouched. |
| Scheduling.Scheduler.GetNextTask | BofSA/src/au/edu/csu/bofsa/Scheduler.java:206-263 | The queues, counters and task returned are those NextTask gives for the current mode; nothing else changes. |
| Scheduling.Scheduler.Call | BofSA/src/au/edu/csu/bofsa/Scheduler.java:265-316 | The new state is Submit of the old one. |
| Scheduling.Scheduler.CountRun | BofSA/src/au/edu/csu/bofsa/Scheduler.java:266-285 | The run time, the per-class count and the task count go up as Counted says. |
| Scheduling.Scheduler.Enqueue | BofSA/src/au/edu/csu/bofsa/Scheduler.java:287-313 | The task joins the queue Enqueued says for the mode. |
| Scheduling.Scheduler.HandleEvent | BofSA/src/au/edu/csu/bofsa/Scheduler.java:320-326 | Only NEW_BEHAVIOUR submits its source; any other event changes nothing. |
| Scheduling.Scheduler.Slice | BofSA/src/au/edu/csu/bofsa/Scheduler.java:180-204 | The scheduler and every worker's queue change as the Slice function says. |
| Scheduling.Scheduler.Settle | BofSA/src/au/edu/csu/bofsa/Scheduler.java:198-203 | The caller gets the leftover task, or joins the idle queue when none was left and there is room. |
| Scheduling.Scheduler.HandOut | BofSA/src/au/edu/csu/bofsa/Scheduler.java:187-196 | The hand-off loop does what Handoff says. |
| Scheduling.Scheduler.Deliver | BofSA/src/au/edu/csu/bofsa/Scheduler.java:187-204 | From the first polled task, every idle worker gets exactly the tasks Handoff hands it, and the caller then gets the leftover task or joins the idle queue, as Slice says. |
| Scheduling.Scheduler.HandOne | BofSA/src/au/edu/csu/bofsa/Scheduler.java:188-195 | The first idle worker leaves the idle queue and gets the task, and the next task is polled. |
| Scheduling.PollFirst | BofSA/src/au/edu/csu/bofsa/Scheduler.java:207-211 | The UNORDERED poll, as PollUnordered says. |
| Scheduling.PollRetrying | BofSA/src/au/edu/csu/bofsa/Scheduler.java:213-232 | The retry loop, as PollRetry says, including the case where it spins. |
| Scheduling.PollPrecomputing | BofSA/src/au/edu/csu/bofsa/Scheduler.java:234-259 | The precompute poll, as PollPrecompute says. |
| Scheduling.Scheduler.Store | BofSA/src/au/edu/csu/bofsa/Scheduler.java:206-259 | The fields getNextTask leaves: the three queues and the retry and unready counters are those given, and nothing else changes. |
| Scheduling.MoveUnsorted | BofSA/src/au/edu/csu/bofsa/Scheduler.java:237-243 | Every unsorted task joins the tail of the waiting list, in order. |
| Scheduling.PromoteReady | BofSA/src/au/edu/csu/bofsa/Scheduler.java:245-251 | The backward scan leaves the unready tasks in order and appends the ready ones to the run queue, as Staying and Promoted say. |
| Scheduling.WorkerThread.constructor | BofSA/src/au/edu/csu/bofsa/WorkerThread.java:43-47 | A new worker belongs to its scheduler and has no tasks. |
| Scheduling.WorkerThread.Call | BofSA/src/au/edu/csu/bofsa/WorkerThread.java:72-74 | The task joins the tail of the worker's queue. |
| Scheduling.WorkerThread.Drain | BofSA/src/au/edu/csu/bofsa/WorkerThread.java:51-63 | Tasks run in order and the scheduler ends as Fed says: each run's announced behaviours are submitted, then the task itself when it returned true, under the task view after that run; one that throws is dropped; an interrupt ends the pass with the rest left queued. |
| Scheduling.WorkerThread.Admit | BofSA/src/au/edu/csu/bofsa/Scheduler.java:320-326 | The NEW_BEHAVIOUR announcements of one run reach call in order: the scheduler ends as SubmitAll says. |
| Scheduling.WorkerThread.RunOnce | BofSA/src/au/edu/csu/bofsa/WorkerThread.java:50-68 | One iteration of run: the drain pass as Fed says, then slice(this) once under the task view of that moment; the worker keeps what the pass left, then receives what the hand-off gave it and the leftover task; every other idle worker receives exactly its hand-off tasks. |
| Sprites.Basic | BofSA/src/au/edu/csu/bofsa/Sprite.java:157-163 | The basic sequence maps position i to frame i for every frame of the sheet. |
| Sprites.Points | BofSA/src/au/edu/csu/bofsa/Sprite.java:129-135 | An array with no null element gives its points in order. |
| Sprites.StepsInRange | BofSA/src/au/edu/csu/bofsa/Sprite.java:185-201 | Stepping on and stepping back stay within the sequence. |
| Sprites.NextIndex | BofSA/src/au/edu/csu/bofsa/Sprite.java:185-189 | The reference definition of the doNextFrame step: one on, back to 0 past the last; StepsInRange, AdvanceFromStart and AdvanceCycles state its properties. |
| Sprites.PrevIndex | BofSA/src/au/edu/csu/bofsa/Sprite.java:196-198 | The prevFrame step as written: one back, but to the last position whenever that reaches 0 or below; PrevSkipsFirst and PrevFromOne state its properties. |
| Sprites.AdvanceFromStart | BofSA/src/au/edu/csu/bofsa/Sprite.java:185-191 | k steps on from the start, for k below the length, stand at position k. |
| Sprites.AdvanceCycles | BofSA/src/au/edu/csu/bofsa/Sprite.java:185-191 | Length-many steps on from the start come back to it. |
| Sprites.PrevSkipsFirst | BofSA/src/au/edu/csu/bofsa/Sprite.java:196-198 | As written, with more than one point, prevFrame never reaches position 0. |
| Sprites.PrevFromOne | BofSA/src/au/edu/csu/bofsa/Sprite.java:196-198 | As written, stepping back from position 1 and on again does not return to 1. |
| Sprites.PrevIndexIntended | BofSA/src/au/edu/csu/bofsa/Sprite.java:196-198 | The intended step back stays within the sequence. |
| Sprites.PrevIntendedInverts | BofSA/src/au/edu/csu/bofsa/Sprite.java:185-198 | The intended step back undoes a step on, and is undone by one. |
| Sprites.Sprite.constructor | BofSA/src/au/edu/csu/bofsa/Sprite.java:79-85 | A new sprite plays the basic sequence from its start. |
| Sprites.Sprite.GetFrameIndex | BofSA/src/au/edu/csu/bofsa/Sprite.java:106-108 | The frame being shown. |
| Sprites.Sprite.SetFrameIndex | BofSA/src/au/edu/csu/bofsa/Sprite.java:110-117 | Succeeds exactly when i < numFrames (negative i included) and then shows frame i; otherwise nothing changes. |
| Sprites.Sprite.SetFrameSequence | BofSA/src/au/edu/csu/bofsa/Sprite.java:123-143 | Accepted exactly when the array is non-null, non-empty, has no null element and no frame past the sheet; then it becomes the custom sequence shown from its start, else nothing changes. |
| Sprites.Sprite.ResetSequenceIndex | BofSA/src/au/edu/csu/bofsa/Sprite.java:146-155 | Back to position 0 with time 0, showing the first point's frame, or frame 0 when the sequence is empty. |
| Sprites.Sprite.DoSetBasicFrameSequence | BofSA/src/au/edu/csu/bofsa/Sprite.java:157-167 | The basic sequence is installed, not custom, shown from its start. |
| Sprites.Sprite.SetFrameSequenceIndex | BofSA/src/au/edu/csu/bofsa/Sprite.java:169-177 | A position within the sequence is moved to and its frame shown; any other is refused with no change. |
| Sprites.Sprite.NextFrame | BofSA/src/au/edu/csu/bofsa/Sprite.java:179-183 | The frame time restarts and the sprite steps on as doNextFrame does. |
| Sprites.Sprite.DoNextFrame | BofSA/src/au/edu/csu/bofsa/Sprite.java:185-191 | One position on, wrapping from the last to 0, showing the frame there; an empty sequence throws. |
| Sprites.Sprite.PrevFrame | BofSA/src/au/edu/csu/bofsa/Sprite.java:193-201 | The frame time restarts and the sprite steps back as written: to the last position whenever the decrement reaches 0 or below. |
| GameLevel.BoardNode.constructor | BofSA/src/au/edu/csu/bofsa/GameLevel.java:67-81 | A new tile has the given attributes and no tower. |
| GameLevel.BoardNode.Open | BofSA/src/au/edu/csu/bofsa/GameLevel.java:71-73 | BoardNode(image) is both pathable and buildable, with no tower. |
| GameLevel.BoardNode.IsPathable | BofSA/src/au/edu/csu/bofsa/GameLevel.java:99-101 | Pathable exactly when no tower stands on the tile and it carries PATHABLE. |
| GameLevel.BoardNode.SetPathable | BofSA/src/au/edu/csu/bofsa/GameLevel.java:103-105 | Adds PATHABLE and nothing else. |
| GameLevel.BoardNode.SetUnpathable | BofSA/src/au/edu/csu/bofsa/GameLevel.java:107-109 | Removes PATHABLE and nothing else; the tile is then not pathable. |
| GameLevel.BoardNode.SetBuildable | BofSA/src/au/edu/csu/bofsa/GameLevel.java:111-113 | Adds BUILDABLE and nothing else. |
| GameLevel.BoardNode.SetUnbuildable | BofSA/src/au/edu/csu/bofsa/GameLevel.java:115-117 | Removes BUILDABLE and nothing else; no tower can then be placed. |
| GameLevel.BoardNode.PlaceTower | BofSA/src/au/edu/csu/bofsa/GameLevel.java:119-127 | Succeeds exactly when the tile is buildable and free, and then stores the tower; the attributes never change; a placed tower makes the tile unpathable and refuses a second tower. |
| GameLevelST.TileOf | BofSA/src/au/edu/csu/bofsa/GameLevelST.java:288-290 | An in-bounds position lies on the tile given by the floor of each coordinate, within the board. |
| GameLevelST.Level.constructor | BofSA/src/au/edu/csu/bofsa/GameLevelST.java:126-160 | The board holds one column per x and one tile per y. |
| GameLevelST.Level.SpawnTowerOn | BofSA/src/au/edu/csu/bofsa/GameLevelST.java:285-294 | A null tower or one off the board is refused with no tile changed; otherwise the answer and the change are those of placeTower on exactly the tile under the tower. |
| GameLevelST.Level.SpawnTower | BofSA/src/au/edu/csu/bofsa/GameLevelST.java:276-293 | The built tower is returned exactly when it was placed, null otherwise; when placed, its tile holds the tower's sprite, otherwise the tile keeps its tower; the tile's attributes never change. |
| Logging.Reset | BofSA/src/au/edu/csu/bofsa/Logger.java:85-90 | The four counters become zero; the mean and sum of squares stay. |
| Logging.Merge | BofSA/src/au/edu/csu/bofsa/Logger.java:92-118 | Each counter becomes the sum of both sides; mean and sum of squares are combined as for two samples. |
| Logging.MergeWeighsMeans | BofSA/src/au/edu/csu/bofsa/Logger.java:106-109 | The merged mean is the mean of both samples taken together. |
| Logging.MergeZero | BofSA/src/au/edu/csu/bofsa/Logger.java:99-100 | Merging in stats that never ran changes nothing. |
| Logging.MergeCountsAssociate | BofSA/src/au/edu/csu/bofsa/Logger.java:114-117 | Merging is associative on the counters. |
| Logging.Count | BofSA/src/au/edu/csu/bofsa/Logger.java:328-371 | The entry is created zeroed if missing; exactly one of its counters goes up by one; every other entry and counter stays. |
| Logging.Timed | BofSA/src/au/edu/csu/bofsa/Logger.java:316-325 | In SAMPLE mode the duration joins the total run time and the running mean and sum of squares take in the sample; the counts stay. |
| Logging.TimedMean | BofSA/src/au/edu/csu/bofsa/Logger.java:319-323 | n times the new mean is (n - 1) times the old mean plus the new sample. |
| Logging.ResetAll | BofSA/src/au/edu/csu/bofsa/Logger.java:158-160 | Every entry is reset and no entry is added or removed. |
| Logging.CombineCounts | BofSA/src/au/edu/csu/bofsa/Logger.java:185-191 | After a merge every task name of either side is present and its counters are the sums of both sides'. |
| Logging.CombineEmpty | BofSA/src/au/edu/csu/bofsa/Logger.java:185-192 | Merging a logger with no stats leaves the stats as they were. |
| Logging.Int32 | BofSA/src/au/edu/csu/bofsa/Logger.java:64 | The (int) cast: the value in int range congruent to the long modulo 2^32. |
| Logging.CompareAsWrittenMisorders | BofSA/src/au/edu/csu/bofsa/Logger.java:63-65 | As written, tasks started 2^31 ns apart compare the wrong way round. |
| Logging.Compare | BofSA/src/au/edu/csu/bofsa/Logger.java:63-65 | The intended order: negative exactly when the first task started earlier, zero exactly when both started together. |
| Logging.CompareAntisymmetric | BofSA/src/au/edu/csu/bofsa/Logger.java:63-65 | The intended comparison is antisymmetric. |
| Logging.SortByStartSorts | BofSA/src/au/edu/csu/bofsa/Logger.java:194 | The sort orders the tasks by start time and keeps every one of them. |
| Logging.InsertSorted | BofSA/src/au/edu/csu/bofsa/Logger.java:194 | Inserting a task into a list sorted by start time keeps it sorted. |
| Logging.InsertPermutes | BofSA/src/au/edu/csu/bofsa/Logger.java:194 | Inserting a task adds it and keeps every other task. |
| Logging.Logger.constructor | BofSA/src/au/edu/csu/bofsa/Logger.java:138-145 | No pending tasks, no stats, BASIC mode. |
| Logging.Logger.StartLogging | BofSA/src/au/edu/csu/bofsa/Logger.java:151-164 | Pending tasks are dropped, every stats entry reset, and the description, worker count and start time recorded. |
| Logging.Logger.StartLoggingUnsized | BofSA/src/au/edu/csu/bofsa/Logger.java:147-149 | startLogging with a worker count of -1. |
| Logging.Logger.SetLogMode | BofSA/src/au/edu/csu/bofsa/Logger.java:166-168 | The mode is set and nothing else changes. |
| Logging.Logger.TaskRunNamed | BofSA/src/au/edu/csu/bofsa/Logger.java:328-341 | Only the task's execution count goes up, its entry created if missing. |
| Logging.Logger.TaskWaited | BofSA/src/au/edu/csu/bofsa/Logger.java:343-356 | Only the task's wait count goes up, its entry created if missing. |
| Logging.Logger.TaskRetried | BofSA/src/au/edu/csu/bofsa/Logger.java:358-371 | Only the task's retry count goes up, its entry created if missing. |
| Logging.Logger.TaskRun | BofSA/src/au/edu/csu/bofsa/Logger.java:298-326 | The run is counted; the task is queued in DETAILED mode, and in SAMPLE mode when sampled; in SAMPLE mode its duration is folded in as Timed says. |
| Logging.Logger.MergeFrom | BofSA/src/au/edu/csu/bofsa/Logger.java:170-197 | Null changes nothing; otherwise both queues are drained into this one sorted by start time with no task lost, the stats combined, and rhs left with no pending tasks and no stats. |
| CommandLine.ParseInt | BofSA/src/au/edu/csu/bofsa/BofSA.java:56 | Integer.parseInt: an optional sign and decimal digits, within int range, else NumberFormatException (None). |
| CommandLine.ParseDecimal | BofSA/src/au/edu/csu/bofsa/BofSA.java:54-56 | A thread count written in decimal is read back as itself. |
| CommandLine.EqualsIgnoreCase | BofSA/src/au/edu/csu/bofsa/BofSA.java:61-63 | String.equalsIgnoreCase: the same length and equal letter by letter once ASCII upper case is folded to lower case. |
| CommandLine.ModeNamed | BofSA/src/au/edu/csu/bofsa/BofSA.java:61-67 | The mode of a -l argument: DETAILED or SAMPLE when the rest of the argument names it in any case, BASIC otherwise. |
| CommandLine.Step | BofSA/src/au/edu/csu/bofsa/BofSA.java:53-68 | One pass of the loop: -t sets the thread count when the rest parses as an int, -l sets the mode, anything else changes nothing. |
| CommandLine.LoopLastWins | BofSA/src/au/edu/csu/bofsa/BofSA.java:53-69 | The argument loop lets the last -t with a valid number and the last -l win; any other argument is ignored. |
| CommandLine.ParseArguments | BofSA/src/au/edu/csu/bofsa/BofSA.java:47-69 | Starting from the processor count and BASIC, the result is the last valid -tN and the mode of the last -l (Detailed, Sample, case-insensitive, else BASIC). |
| CopyablePoints.CopyablePoint.constructor | BofSA/src/au/edu/csu/bofsa/CopyablePoint.java:37-39 | The point holds x and y. |
| CopyablePoints.CopyablePoint.CopyFrom | BofSA/src/au/edu/csu/bofsa/CopyablePoint.java:42-45 | copy(rhs): this point takes rhs's coordinates and rhs is unchanged. |
| CopyablePoints.CopyablePoint.Copy | BofSA/src/au/edu/csu/bofsa/CopyablePoint.java:48-50 | copy(): a new point with the same coordinates. |
| CopyablePoints.MoveCopy | BofSA/src/au/edu/csu/bofsa/CopyablePoint.java:48-50 | Moving a copy leaves the original unchanged. |

## Left out

- Threads and concurrency: thread start, interrupt and join, priorities, `Thread.yield`, lock contention, and atomic or concurrent-collection semantics. One sequential interleaving is modelled. `tryLock` is a parameter. An `InterruptedException` and a task's result are an `Outcome` parameter of the worker's drain.
- Scheduling.WorkerThread.Drain and Scheduling.WorkerThread.RunOnce: what a run does to the scheduler is reduced to the behaviours it announces (`births`) and how the scheduler sees the tasks once it is over (`views`). The runs themselves are not executed, so these are parameters rather than consequences of the task's code. Announcements of one run are submitted under the view at its end, not the view at the moment each was sent, and a run that starts or stops the scheduler is not modelled.
- The worker's `run` loop as a whole. It never ends, so one iteration (`Scheduling.WorkerThread.RunOnce`) is modelled.
- File and console output: `Scheduler.stopLogging`, `Logger.stopLogging`, `flush`, `getFile`, `run`, `printStackTrace` and `Task.toString`.
- The Fibonacci ballast loop in `Behaviour.call`. It only burns time.
- Clock readings are parameters. Successive `nanoTime` calls within one constructor or run are one reading.
- Floating point: hit points, `TaskStats` mean and variance, positions and the float-to-long conversions of the spawn and fire intervals are `real`s or `int` parameters, without rounding. The distance tests are boolean parameters.
- Logging.Logger.TaskRun: `Math.random() >= 0.99` is the `sampled` parameter.
- Slick2D: images, sprite sheets, `TiledMap` loading, every `draw` and `render`, `Sprite.update` timing, the Sprite copy constructor and the resource caches.
- The level constructors that read the map. `GameLevelST.Level.constructor` takes the board, already filled in.
- GameLevelST.Level.SpawnTower: takes the tower `Tower.createTower` built as a parameter. The one-argument `Tower.createTower(pos)` it calls is not declared in Tower.java, whose `createTower` takes a type and a position, so the building itself is not modelled.
- Tower and creep internals: `Tower.update` and `Tower.attack`, MoveBehaviour, VelocityBehaviour and ActorRenderBehaviour. `CreepFactory.Follower` stands in for the move and velocity behaviours: it gives each its output, its inputs and its stream subscription. A `RenderBehaviour` stands in for the ActorRenderBehaviour.
- CreepFactory.CreepFactoryBehaviour.SpawnCreep and TowerFactory.TowerFactoryBehaviour.CreateTower: all of an entity's behaviours are built first and then announced. Java interleaves building and announcing. Building touches only new objects, so what the watcher receives is the same, but the interleaving itself is not modelled.
- The sprite handed to a tower in `createTower`, sprite sharing between tiles, and `EnumSet` sharing between tiles built from the same set. Attributes and towers are values.
- TowerFactory.TowerFactoryBehaviour.DoRun: states that every tower it built stays placed on its tile (`Placed`), not the full wiring `Raised` that `CreateTower` states. The draw-watcher part of the wiring is not carried through the loop.
- Render.RenderBehaviour.DoRun: requires that the behaviour is not among its own draw watchers. In Java each ADD_DRAWABLE would then come back to its own mailbox and the drain would never end.
- Spawn.SpawnBehaviour.DoRun and Spawn.Cycle: require a positive spawn interval, no negative phase length and not both phases empty. With an interval of 0 or less the inner loop of SpawnBehaviour.java:109-125 does not run spawnDelta down and, unless the phase is already over, never ends; with both phases 0 the do/while loop of lines 86-137 goes round forever. Negative lengths, which Java would take from negative floats, are not modelled.
- CreepFactory.CreepFactoryBehaviour.DoRun and TowerFactory.TowerFactoryBehaviour.DoRun: require that the behaviour watcher does not reach the factory's own mailbox. This excludes the game's own wiring: InGameStateTB.java:108-118 makes the broadcast stream both factories' behaviour watcher and subscribes both factories to it. There every NEW_BEHAVIOUR a factory sends also joins its own mailbox during the run, and the loop later polls and ignores it. The model does not follow a mailbox that grows while it is drained, so neither DoRun covers that configuration.
- CreepFactory.CreepFactoryBehaviour.DoRun: names the creeps built, their pipes, the behaviours announced in order and each creep's fixed links (Linked). It does not carry past the SpawnCreep call that states them each creep's signal values, stream listeners or freshness (Wired), because they sit in the heap and would have to be framed across the rest of the loop.
- Logging.Logger.MergeFrom: requires `rhs != this`. Java's `merge(this)` (Logger.java:170-197) would drain its own queue into itself, merge every stats entry with itself, which doubles its counters, and then `rhs.taskStats.clear()` would delete all of this logger's stats. That self-merge is not modelled.
- Logging.Logger.MergeFrom: entries moved from rhs are shared `TaskStats` objects in Java. Here they are values, so aliasing between the two loggers after a merge is not modelled.
- Logging.Logger.MergeFrom sorts by the intended `Logging.Compare`. `Collections.sort` with the comparator as written may misorder tasks or throw when start times lie 2^31 ns or more apart (see Findings).
- Java `long` and `int` wrap-around of counters, time stamps and run-time sums. All are unbounded. Only the `(int)` cast in `Task.compareTo` is modelled (`Logging.Int32`).
- CommandLine.ParseInt and CommandLine.EqualsIgnoreCase: ASCII only. Java's `parseInt` also accepts non-ASCII Unicode digits, and `equalsIgnoreCase` folds some non-ASCII letters to ASCII ones (dotless i, long s).
- `compareTo` by hash-code difference on behaviours, streams and the scheduler. Sink sets are mathematical sets.
- Nested streams: a stream's sinks are mailboxes. A stream subscribed to another stream is not modelled.
- The superseded root-package `Behaviour.java`, `CollisionBehaviour.java`, `MoveBehaviour.java` and `CreepFactory.java`, the game states, the menus and input polling.

## Findings

| source | as written | input that shows it | evidently intended | confidence | as-written member | corrected member |
|---|---|---|---|---|---|---|
| BofSA/src/au/edu/csu/bofsa/Behaviours/TowerFactoryBehaviour.java:198-204 | REMOVE_LOCATION appends the tile, the same as ADD_LOCATION | an ADD_LOCATION of tile p followed by a REMOVE_LOCATION of p leaves p listed twice | REMOVE_LOCATION removes the first occurrence of the tile | not executed | TowerFactory.AddThenRemoveKeeps | TowerFactory.IntendedUndo |
| BofSA/src/au/edu/csu/bofsa/Sprite.java:196-198 | prevFrame wraps when the decremented index is `<= 0` | a sequence of 3 points at position 1: prevFrame goes to 2, not 0, and nextFrame then goes to 0, not back to 1 | wrap only when the index drops below 0 | not executed | Sprites.PrevFromOne | Sprites.PrevIntendedInverts |
| BofSA/src/au/edu/csu/bofsa/Logger.java:63-65 | compareTo returns the long difference of start times cast to int | start times 0 and 2^31: the earlier task compares as greater | the sign of the difference | not executed | Logging.CompareAsWrittenMisorders | Logging.SortByStartSorts |
