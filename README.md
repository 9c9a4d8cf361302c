# Intersection-management simulation and fitness evaluation, in Dafny

This project models the core of MastersCode, a simulator that scores neural controllers for
an autonomous intersection by counting collisions. The model covers three Java classes:

- **Simulator** (`simulator/Simulator.java`) is the fixed-tick engine. Every active actor
  senses the 3x3 block of grid buckets around it, steps and moves. Actors that report
  `finished` are queued for removal. The bucket grid is rebuilt from the active actors. Every
  solid active actor that overlaps another solid active actor is queued for removal and counted. Actors
  handed over during the tick wait in a buffer and join the active list at the tick's end,
  after which every queued actor leaves all three lists.
  - `TickEngine.Tick` is the tick as a function on the simulator's whole state.
  - `Engine.Simulator` is the class, with its lists, counters and nested grid map updated in
    place. `Engine.Simulator.Step` is proved to leave exactly the state `Tick` gives.
  - `TickProperties` proves what a tick promises: the invariant it keeps, who stays active,
    the counters, the grid, and collision symmetry.
- **Trial** (`trial/Trial.java`) reads a trial's parameters in source order. Each missing
  field is an error naming it; the spawner type picks the schedule. The run places one car
  spawner per vehicle start node and one pedestrian spawner per pedestrian start node, then
  steps the simulator `simulationSteps` times. Both the class (`TrialAssembly.Trial`) and the
  functional specification (`Parse`, `Simulate`) are given and proved equal.
- **Evolution** (`evolution/Evolution.java`) covers four operations:
  - the constructor's parameter reads and its switch on the algorithm name;
  - `runTrials`: every trial, `trialRepetitions` times, with the network and a fresh seed
    from the shared random source put into its parameters, summing half of each run's
    collisions;
  - `setupSimpleNN`: the 510-weight layout of the 14(+bias)-30-2 network;
  - the `runNE` loop with its early stop on a zero best score.

  Each method is proved against a specification function (`Fitness`, `Layout`,
  `IterationsRun`), and the properties of those functions are proved as lemmas.

Actors are identified by their index into a `world` sequence, which plays the part of Java
object references. What an actor does in `step` and `moveTowardsTarget` is a parameter (a
`Behaviour`), and so is the content of the track files. The Java exceptions are the error
values of `Basics.Error`:
- a missing JSON field, an unknown spawner type and an unknown algorithm;
- the NullPointerException of a grid cell outside -1..50;
- the IOException of an unreadable track.

Where the written design of the system and the code disagree, the model follows the code:
- `detectCollision` scans the whole active list, not the grid neighbourhood. The grid only
  serves sensing.
- A tick's raw collision tally grows by the number of flagged actors. That is never exactly
  one (`TickProperties.CollidersNeverOne`), but it is not always even: three mutually
  overlapping actors add three.
- runTrials halves each repetition's collision count separately (`collisions / 2`, rounded
  down) before summing; it does not halve the total.
- The grid after a tick still holds the actors removed at that tick's end, and actors that
  joined from the buffer are not in it until the next rebuild (`TickProperties.TickGrid`).
- `finishedCars` counts every active actor that reports `finished`, not only cars.

## Model

| member | source | states |
|---|---|---|
| Basics.Required | Trial/src/main/java/intersectionmanagement/trial/Trial.java:46-48 | a present field yields its value; an absent one fails with the error naming that field, and only then |
| Basics.ToByte | Trial/src/main/java/intersectionmanagement/trial/Trial.java:53 | the `(byte)` cast keeps the value modulo 256 and is the identity on -128..127 |
| SpatialGrid.BuildGrid | Simulator/src/main/java/intersectionmanagement/simulator/Simulator.java:87-98 | the rebuilt grid has a column for every index -1..50 and, in each, a bucket for every index -1..50 |
| SpatialGrid.BucketMembership | Simulator/src/main/java/intersectionmanagement/simulator/Simulator.java:93-97 | an actor is in bucket (i, j) exactly when it is listed and its cell is (i, j) |
| SpatialGrid.RebuiltGridPlacement | Simulator/src/main/java/intersectionmanagement/simulator/Simulator.java:87-98 | after putActorsInGrid an actor is in bucket (i, j) iff (i, j) lies in -1..50 and the actor is active with cell (i, j) |
| SpatialGrid.GridExtensional | Simulator/src/main/java/intersectionmanagement/simulator/Simulator.java:87-98 | a grid of the constructor's shape whose every bucket holds that bucket's actors is the rebuilt grid |
| SpatialGrid.ClearNext | Simulator/src/main/java/intersectionmanagement/simulator/Simulator.java:88-92 | emptying bucket (i, j) keeps the grid's shape and extends the emptied prefix by one bucket |
| SpatialGrid.PlaceNext | Simulator/src/main/java/intersectionmanagement/simulator/Simulator.java:93-97 | appending the next active actor to its bucket turns the grid of the first k actors into that of the first k + 1 |
| SpatialGrid.BlockCovered | Simulator/src/main/java/intersectionmanagement/simulator/Simulator.java:69-85 | whatever any bucket of the 3x3 block holds is among the actors getActorsFromGrid returns |
| SpatialGrid.NeighbourBucket | Simulator/src/main/java/intersectionmanagement/simulator/Simulator.java:69-85 | whatever getActorsFromGrid returns lies in one bucket of the 3x3 block |
| SpatialGrid.NeighbourSource | Simulator/src/main/java/intersectionmanagement/simulator/Simulator.java:69-85 | on a rebuilt grid getActorsFromGrid returns only active actors whose cell is within one step on both axes |
| SpatialGrid.NeighbourhoodMembership | Simulator/src/main/java/intersectionmanagement/simulator/Simulator.java:69-85 | for a cell inside the grid (0..49 on both axes), getActorsFromGrid on a rebuilt grid returns exactly the active actors whose cell lies in the 3x3 block (both directions) |
| TickEngine.Initial | Simulator/src/main/java/intersectionmanagement/simulator/Simulator.java:24-38 | a new simulator is consistent and every bucket of -1..50 x -1..50 is empty |
| TickEngine.AddAll | Simulator/src/main/java/intersectionmanagement/simulator/Simulator.java:118-130 | each addActor/addCar/addPedestrian allocates exactly one actor and leaves actorArray and the grid alone |
| TickEngine.StepActor | Simulator/src/main/java/intersectionmanagement/simulator/Simulator.java:44-45 | an actor's turn succeeds iff its cell lies in 0..49 on both axes, else fails with MissingBucket (on the constructor's grid shape, exactly where its whole 3x3 block of buckets exists); the world only grows, and actorArray and the grid stay as they were |
| TickEngine.Turn | Simulator/src/main/java/intersectionmanagement/simulator/Simulator.java:43-50 | one iteration of the behaviour loop succeeds iff the actor's cell lies in 0..49 on both axes (on the constructor's grid shape, exactly where its 3x3 block exists), else fails with MissingBucket; it leaves actorArray and the grid alone |
| TickEngine.BehavePhase | Simulator/src/main/java/intersectionmanagement/simulator/Simulator.java:43-50 | the behaviour loop leaves actorArray and the grid as they were, and its only failure is MissingBucket |
| TickEngine.Colliders | Simulator/src/main/java/intersectionmanagement/simulator/Simulator.java:54-59 | the collision loop over k actors flags at most k |
| TickEngine.RemoveAll | Simulator/src/main/java/intersectionmanagement/simulator/Simulator.java:64-66 | removeAll keeps exactly the elements not removed, and never lengthens the list |
| TickEngine.Settle | Simulator/src/main/java/intersectionmanagement/simulator/Simulator.java:52-66 | the end of a tick succeeds iff every active actor has a bucket, else fails with MissingBucket; its lists name allocated actors |
| TickEngine.Tick | Simulator/src/main/java/intersectionmanagement/simulator/Simulator.java:40-67 | a tick keeps every list within the allocated actors, and its only failure is MissingBucket |
| TickEngine.Run | Trial/src/main/java/intersectionmanagement/trial/Trial.java:103-105 | n ticks keep every list within the allocated actors; the only failure is MissingBucket |
| TickEngine.RunStopsOnError | Trial/src/main/java/intersectionmanagement/trial/Trial.java:103-105 | once a tick throws, every longer run throws |
| TickEngine.FinishedInMembership | Simulator/src/main/java/intersectionmanagement/simulator/Simulator.java:46-49 | the finished list holds exactly the listed actors that report `finished` |
| TickEngine.AddConsistent | Simulator/src/main/java/intersectionmanagement/simulator/Simulator.java:118-130 | one add keeps the simulator consistent |
| TickEngine.AddAllFacts | Simulator/src/main/java/intersectionmanagement/simulator/Simulator.java:118-130 | adds append their actors in call order and queue exactly the fresh ids; counters and random state are untouched; carArray and pedestrianArray lose nothing and gain only fresh ids |
| TickEngine.StepActorFacts | Simulator/src/main/java/intersectionmanagement/simulator/Simulator.java:44-45 | a turn changes no other actor, queues exactly the actors it allocates, and leaves the collision and finished counters alone |
| TickEngine.BehavePhaseStopped | Simulator/src/main/java/intersectionmanagement/simulator/Simulator.java:43-50 | once a turn throws, the whole behaviour loop throws |
| TickEngine.TurnFacts | Simulator/src/main/java/intersectionmanagement/simulator/Simulator.java:44-49 | one iteration changes no other actor, queues exactly its fresh actors, appends the actor to the removal list iff it finished, and counts it |
| TickEngine.BehavePhaseBuffer | Simulator/src/main/java/intersectionmanagement/simulator/Simulator.java:43-50 | after the behaviour loop the buffer is the old buffer plus every actor allocated during it, and collisions are unchanged |
| TickEngine.BehavePhaseLists | Simulator/src/main/java/intersectionmanagement/simulator/Simulator.java:43-50 | the behaviour loop drops no car or pedestrian and adds only fresh ones |
| TickEngine.BehavePhaseFits | Simulator/src/main/java/intersectionmanagement/simulator/Simulator.java:43-50 | the behaviour loop keeps every list within the allocated actors |
| TickEngine.BehavePhaseFrame | Simulator/src/main/java/intersectionmanagement/simulator/Simulator.java:43-50 | an actor not yet stepped keeps its state |
| TickEngine.TurnFinished | Simulator/src/main/java/intersectionmanagement/simulator/Simulator.java:46-49 | after a turn the removal list is still the finished actors among those stepped, and finishedCars counts them |
| TickEngine.BehavePhaseFinished | Simulator/src/main/java/intersectionmanagement/simulator/Simulator.java:43-50 | the removal list after the loop is the stepped actors that report `finished`, and finishedCars grows by its length |
| TickEngine.RemoveAllDistinct | Simulator/src/main/java/intersectionmanagement/simulator/Simulator.java:64-66 | removeAll keeps a list free of duplicates |
| TickEngine.TickPhases | Simulator/src/main/java/intersectionmanagement/simulator/Simulator.java:40-67 | a tick is the behaviour loop followed by the settle phase on what the loop leaves |
| TickEngine.SettleConsistent | Simulator/src/main/java/intersectionmanagement/simulator/Simulator.java:52-66 | the settle phase restores the invariant: the grid's shape, no actor listed twice among the active and pending ones, every car and pedestrian active or pending |
| TickEngine.TickConsistent | Simulator/src/main/java/intersectionmanagement/simulator/Simulator.java:40-67 | a tick preserves the invariant |
| Engine.Simulator.constructor | Simulator/src/main/java/intersectionmanagement/simulator/Simulator.java:24-38 | the new object is the initial state and satisfies the invariant |
| Engine.Simulator.EmptyGrid | Simulator/src/main/java/intersectionmanagement/simulator/Simulator.java:31-37 | the constructor's nested loops build the empty 52 x 52 grid |
| Engine.Simulator.EmptyColumn | Simulator/src/main/java/intersectionmanagement/simulator/Simulator.java:33-36 | the inner loop builds an empty column with a bucket for every index of -1..50 |
| Engine.Simulator.AddActor | Simulator/src/main/java/intersectionmanagement/simulator/Simulator.java:118-120 | the actor is allocated and queued in the buffer; the invariant is kept |
| Engine.Simulator.AddCar | Simulator/src/main/java/intersectionmanagement/simulator/Simulator.java:122-125 | the car is queued and listed in carArray at once; the invariant is kept |
| Engine.Simulator.AddPedestrian | Simulator/src/main/java/intersectionmanagement/simulator/Simulator.java:127-130 | the pedestrian is queued and listed in pedestrianArray at once; the invariant is kept |
| Engine.Simulator.Hand | Simulator/src/main/java/intersectionmanagement/simulator/Simulator.java:118-130 | a handed actor goes through the entry point its kind names |
| Engine.Simulator.HandAll | Simulator/src/main/java/intersectionmanagement/simulator/Simulator.java:44 | the actors a step hands over are added in call order |
| Engine.Simulator.DetectCollision | Simulator/src/main/java/intersectionmanagement/simulator/Simulator.java:100-116 | the scan returns true iff some other actor of actorArray is solid, the actor is solid, and the two overlap |
| Engine.Simulator.PutActorsInGrid | Simulator/src/main/java/intersectionmanagement/simulator/Simulator.java:87-98 | it succeeds iff every active actor has a bucket, and then the grid is exactly the rebuilt grid; nothing else changes |
| Engine.Simulator.ClearGrid | Simulator/src/main/java/intersectionmanagement/simulator/Simulator.java:88-92 | every bucket is emptied and the grid keeps its shape |
| Engine.Simulator.FillGrid | Simulator/src/main/java/intersectionmanagement/simulator/Simulator.java:93-97 | on a cleared grid, each active actor is appended to its bucket in list order, giving exactly the rebuilt grid; it fails iff some active actor has no bucket |
| Engine.Simulator.TakeTurn | Simulator/src/main/java/intersectionmanagement/simulator/Simulator.java:44-45 | the turn leaves exactly the state StepActor gives, and fails exactly when it does |
| Engine.Simulator.BehaveOne | Simulator/src/main/java/intersectionmanagement/simulator/Simulator.java:44-49 | one iteration of the first loop leaves exactly the state and removal list Turn gives |
| Engine.Simulator.BehaviourLoop | Simulator/src/main/java/intersectionmanagement/simulator/Simulator.java:43-50 | the first loop leaves exactly the state and removal list BehavePhase gives, and fails exactly when it does |
| Engine.Simulator.CollisionLoop | Simulator/src/main/java/intersectionmanagement/simulator/Simulator.java:54-59 | the second loop appends exactly the flagged actors to the removal list and adds their number to collisions; nothing else changes |
| Engine.Simulator.SettleStep | Simulator/src/main/java/intersectionmanagement/simulator/Simulator.java:52-66 | the rest of step leaves exactly the state Settle gives, and fails exactly when it does |
| Engine.Simulator.Merge | Simulator/src/main/java/intersectionmanagement/simulator/Simulator.java:62-66 | the buffer joins actorArray and is emptied; every removed actor leaves all three lists |
| Engine.Simulator.Step | Simulator/src/main/java/intersectionmanagement/simulator/Simulator.java:40-67 | step leaves exactly the state Tick gives and keeps the invariant; it fails exactly when Tick does |
| TickProperties.CollidesWithSymmetric | Simulator/src/main/java/intersectionmanagement/simulator/Simulator.java:100-116 | if a is flagged because of o, then o is flagged because of a |
| TickProperties.CollidesMeaning | Simulator/src/main/java/intersectionmanagement/simulator/Simulator.java:100-116 | detectCollision(a) holds iff a is solid and another solid active actor overlaps it |
| TickProperties.CollidersMembership | Simulator/src/main/java/intersectionmanagement/simulator/Simulator.java:54-59 | the collision loop flags exactly the listed actors that detectCollision flags |
| TickProperties.CollidersNeverOne | Simulator/src/main/java/intersectionmanagement/simulator/Simulator.java:54-59 | a tick never flags exactly one actor |
| TickProperties.TickBehaviour | Simulator/src/main/java/intersectionmanagement/simulator/Simulator.java:40-50 | a successful tick is its behaviour phase followed by the settle phase; the behaviour phase keeps actorArray, queues exactly the actors it allocates, and leaves collisions alone |
| TickProperties.PhaseLists | Simulator/src/main/java/intersectionmanagement/simulator/Simulator.java:43-50 | the behaviour phase drops no car or pedestrian, adds only fresh ones, and changes no actor that is not active |
| TickProperties.PhaseFinished | Simulator/src/main/java/intersectionmanagement/simulator/Simulator.java:43-50 | the removal list after the behaviour phase is the active actors that report `finished`, and finishedCars counts them |
| TickProperties.RemovalList | Simulator/src/main/java/intersectionmanagement/simulator/Simulator.java:41-59 | an actor is queued for removal iff it was active and finished or collided |
| TickProperties.TickParts | Simulator/src/main/java/intersectionmanagement/simulator/Simulator.java:40-67 | a tick, unfolded: the lists after removeAll, the empty buffer, the rebuilt grid and both counters |
| TickProperties.TickActive | Simulator/src/main/java/intersectionmanagement/simulator/Simulator.java:62-64 | after a tick, actorArray holds exactly the actors that were active, pending, or allocated during the tick and not removed; the buffer is empty |
| TickProperties.TickPending | Simulator/src/main/java/intersectionmanagement/simulator/Simulator.java:61-63 | a pending actor keeps its state through the tick and is active after it |
| TickProperties.TickLists | Simulator/src/main/java/intersectionmanagement/simulator/Simulator.java:64-66 | a removed actor leaves all three lists; every listed car and pedestrian is active, and none is new except fresh ones |
| TickProperties.TickFinishedCount | Simulator/src/main/java/intersectionmanagement/simulator/Simulator.java:46-49 | finishedCars grows by exactly the number of active actors that report `finished` |
| TickProperties.TickCollisionCount | Simulator/src/main/java/intersectionmanagement/simulator/Simulator.java:54-59 | collisions grows by the number of flagged actors, and never by exactly one |
| TickProperties.TickGrid | Simulator/src/main/java/intersectionmanagement/simulator/Simulator.java:87-98 | after a tick each bucket holds exactly the actors active at the tick's start whose cell it is |
| TickProperties.RunConsistent | Trial/src/main/java/intersectionmanagement/trial/Trial.java:103-105 | the invariant holds after any number of ticks |
| TrialAssembly.SpawnerFactory.GetSpawner | Trial/src/main/java/intersectionmanagement/trial/Trial.java:172-174 | a car spawner on the start node, not solid, not finished, carrying the factory's schedule, weights, steps, parameters and randomness |
| TrialAssembly.ToBytes | Trial/src/main/java/intersectionmanagement/trial/Trial.java:49-55 | the network array has one byte per value, each the value modulo 256, and equal to it on -128..127 |
| TrialAssembly.SpawnerParams | Trial/src/main/java/intersectionmanagement/trial/Trial.java:63-85 | each spawner type reads its own fields in case order into a parameter vector of length 1, 2 or 3; a missing one fails naming it; any other type fails with InvalidSpawnerType |
| TrialAssembly.ParseMeaning | Trial/src/main/java/intersectionmanagement/trial/Trial.java:44-87 | a constructed Trial holds the configured fields and the network bytes (shared with the factory); its schedule and parameter vector are exactly those of its spawner type: `period`, `[min_period, max_period]` or `[period_mul, min_period, max_period]`; an unknown type fails once the earlier fields are present |
| TrialAssembly.CarSpawns | Trial/src/main/java/intersectionmanagement/trial/Trial.java:93-95 | one car spawner per vehicle start node, in track order, through addActor |
| TrialAssembly.PedestrianSpawns | Trial/src/main/java/intersectionmanagement/trial/Trial.java:98-100 | one pedestrian spawner per pedestrian start node, in track order, through addActor |
| TrialAssembly.Simulate | Trial/src/main/java/intersectionmanagement/trial/Trial.java:89-113 | runSimulation fails only on an unreadable track or a missing bucket |
| TrialAssembly.AssembledMeaning | Trial/src/main/java/intersectionmanagement/trial/Trial.java:91-100 | before the first step every spawner is pending, car spawners first, in track order; nothing is active, counted or in the grid; the seed is the trial's |
| TrialAssembly.AddAllPlain | Trial/src/main/java/intersectionmanagement/trial/Trial.java:93-100 | spawners added through addActor leave carArray and pedestrianArray empty |
| TrialAssembly.AddAllConsistent | Trial/src/main/java/intersectionmanagement/trial/Trial.java:93-100 | any run of adds keeps the simulator consistent |
| TrialAssembly.AddAllAppend | Trial/src/main/java/intersectionmanagement/trial/Trial.java:93-100 | the two spawner loops together are one run of adds |
| TrialAssembly.DecodeNetwork | Trial/src/main/java/intersectionmanagement/trial/Trial.java:51-54 | a fresh byte array filled element by element with the cast values |
| TrialAssembly.Trial.constructor | Trial/src/main/java/intersectionmanagement/trial/Trial.java:33-42 | the fields take the given settings and `simulating` starts true |
| TrialAssembly.Trial.FromParameters | Trial/src/main/java/intersectionmanagement/trial/Trial.java:44-87 | construction succeeds iff Parse does, fails with the same error, and yields a fresh Trial holding Parse's settings |
| TrialAssembly.Trial.RunSimulation | Trial/src/main/java/intersectionmanagement/trial/Trial.java:89-113 | the returned fresh simulator is in exactly the state Simulate gives, and it fails exactly when Simulate does |
| TrialAssembly.Trial.AddCarSpawners | Trial/src/main/java/intersectionmanagement/trial/Trial.java:93-95 | the first loop performs exactly the car-spawner adds, keeping the invariant |
| TrialAssembly.Trial.AddPedestrianSpawners | Trial/src/main/java/intersectionmanagement/trial/Trial.java:97-100 | the second loop performs exactly the pedestrian-spawner adds, keeping the invariant |
| TrialAssembly.Trial.ToggleSimulating | Trial/src/main/java/intersectionmanagement/trial/Trial.java:153-155 | the flag flips and nothing else changes |
| TrialAssembly.Trial.RenderedFrame | Trial/src/main/java/intersectionmanagement/trial/Trial.java:133-142 | while simulating, one step (the state Tick gives) and one more step counted, pausing when the count reaches simulationSteps; while paused, nothing changes |
| TrialAssembly.StepRepeatedly | Trial/src/main/java/intersectionmanagement/trial/Trial.java:103-105 | simulationSteps calls of step leave exactly the state Run gives, and fail exactly when Run does |
| TrialAssembly.FramesMeaning | Trial/src/main/java/intersectionmanagement/trial/Trial.java:131-145 | without toggles the rendered loop steps exactly simulationSteps times and then pauses for good; with a step count of zero or less it never pauses |
| NetworkLayout.Slots | Evolution/src/main/java/intersectionmanagement/evolution/Evolution.java:286-290 | the connections of the 15 -> 30 -> 2 network (14 inputs plus bias), and no others |
| NetworkLayout.SlotAt | Evolution/src/main/java/intersectionmanagement/evolution/Evolution.java:292-305 | every genome index 0..509 feeds a connection of the network |
| NetworkLayout.WeightIndexInjective | Evolution/src/main/java/intersectionmanagement/evolution/Evolution.java:292-305 | distinct connections read distinct indices within 0..509; the first layer takes exactly 0..449 |
| NetworkLayout.LayoutBijection | Evolution/src/main/java/intersectionmanagement/evolution/Evolution.java:292-305 | the index layout is a bijection between the 510 connections and 0..509 |
| NetworkLayout.Layout | Evolution/src/main/java/intersectionmanagement/evolution/Evolution.java:285-308 | the network setupSimpleNN builds has a weight for every connection and no other |
| NetworkLayout.LayoutMeaning | Evolution/src/main/java/intersectionmanagement/evolution/Evolution.java:292-305 | genome value k lands on exactly one connection, the one index k feeds |
| NetworkLayout.PartialNext | Evolution/src/main/java/intersectionmanagement/evolution/Evolution.java:295-296 | setting the connection fed by the counter extends the partly built network by one genome value |
| NetworkLayout.SimpleNetwork.constructor | Evolution/src/main/java/intersectionmanagement/evolution/Evolution.java:286-290 | after finalizeStructure every connection exists with weight zero |
| NetworkLayout.SimpleNetwork.SetWeight | Evolution/src/main/java/intersectionmanagement/evolution/Evolution.java:295 | setWeight changes exactly that connection's weight |
| NetworkLayout.SetupSimpleNN | Evolution/src/main/java/intersectionmanagement/evolution/Evolution.java:285-308 | a fresh network in which every connection carries the genome value at its index |
| NetworkLayout.SetRow | Evolution/src/main/java/intersectionmanagement/evolution/Evolution.java:294-297 | the inner loop sets the row's connections from consecutive genome values and advances the counter by the row's width |
| NeuroEvolution.RandomSource.constructor | Evolution/src/main/java/intersectionmanagement/evolution/Evolution.java:51 | a random source that has returned nothing yet |
| NeuroEvolution.RandomSource.NextInt | Evolution/src/main/java/intersectionmanagement/evolution/Evolution.java:256 | nextInt returns the next value of its sequence and advances by one |
| NeuroEvolution.Trainer.constructor | Evolution/src/main/java/intersectionmanagement/evolution/Evolution.java:82 | a trainer that has run no iteration |
| NeuroEvolution.Trainer.Iterate | Evolution/src/main/java/intersectionmanagement/evolution/Evolution.java:111 | iteration() runs one more generation |
| NeuroEvolution.NetworkValues | Evolution/src/main/java/intersectionmanagement/evolution/Evolution.java:254 | the network as the JSON array `put` stores: one number per byte, in order |
| NeuroEvolution.NetworkRoundTrip | Evolution/src/main/java/intersectionmanagement/evolution/Evolution.java:254 | the Trial's byte decode undoes runTrials' encoding of the network |
| NeuroEvolution.RunConfigMeaning | Evolution/src/main/java/intersectionmanagement/evolution/Evolution.java:254-257 | each repetition's Trial has the drawn seed (within 0..Integer.MAX_VALUE - 1) and exactly the given network; whether it builds does not depend on them |
| NeuroEvolution.Repeats | Evolution/src/main/java/intersectionmanagement/evolution/Evolution.java:255-257 | a trial is run `trialRepetitions` times, the i-th with the i-th next random value as seed |
| NeuroEvolution.RunsLength | Evolution/src/main/java/intersectionmanagement/evolution/Evolution.java:253-261 | runTrials builds exactly trials.size() * trialRepetitions Trials |
| NeuroEvolution.RunsSplit | Evolution/src/main/java/intersectionmanagement/evolution/Evolution.java:253-261 | the repetitions come trial by trial, in trial order, on consecutive random values |
| NeuroEvolution.TotalFromMeaning | Evolution/src/main/java/intersectionmanagement/evolution/Evolution.java:251-263 | the sum succeeds iff every repetition does; it then never drops below its start and stays there iff every repetition scores zero |
| NeuroEvolution.TotalMeaning | Evolution/src/main/java/intersectionmanagement/evolution/Evolution.java:251-263 | runTrials succeeds iff every repetition does, and then returns zero iff every repetition scores zero |
| NeuroEvolution.TotalFromFailed | Evolution/src/main/java/intersectionmanagement/evolution/Evolution.java:253-260 | after an exception no later repetition changes the outcome |
| NeuroEvolution.TotalFromAppend | Evolution/src/main/java/intersectionmanagement/evolution/Evolution.java:253-261 | summing two runs of repetitions one after the other is summing their concatenation |
| NeuroEvolution.TotalPrefixFails | Evolution/src/main/java/intersectionmanagement/evolution/Evolution.java:257-258 | a repetition that throws makes runTrials throw the same exception |
| NeuroEvolution.AlgorithmNamed | Evolution/src/main/java/intersectionmanagement/evolution/Evolution.java:77-103 | "cne", "neat" and "hyperneat" select their algorithm (each iff); any other name fails with InvalidAlgorithm |
| NeuroEvolution.ScoreOf | Evolution/src/main/java/intersectionmanagement/evolution/Evolution.java:77-100 | cne trains with CNEScore and only cne does |
| NeuroEvolution.ShouldMinimize | Evolution/src/main/java/intersectionmanagement/evolution/Evolution.java:274-277 | both score classes minimise |
| NeuroEvolution.Configure | Evolution/src/main/java/intersectionmanagement/evolution/Evolution.java:59-105 | a constructed Evolution holds the configured fields; with all fields present, construction succeeds iff the algorithm name is one of the three |
| NeuroEvolution.EarlyStopFrom | Evolution/src/main/java/intersectionmanagement/evolution/Evolution.java:110-130 | from loop counter i, runNE passes no zero-score iteration and ends early only right after one |
| NeuroEvolution.EarlyStop | Evolution/src/main/java/intersectionmanagement/evolution/Evolution.java:107-131 | runNE runs at most `iterations` iterations (at least one when that is positive), every one but the last with a nonzero best score, and stops early only right after a zero |
| NeuroEvolution.Evolution.constructor | Evolution/src/main/java/intersectionmanagement/evolution/Evolution.java:64-100 | the fields take the settings; neatTopology is false exactly for cne, and the score class is the algorithm's |
| NeuroEvolution.Evolution.FromParameters | Evolution/src/main/java/intersectionmanagement/evolution/Evolution.java:59-105 | construction succeeds iff Configure does, with the same error, yielding a fresh Evolution, random source and trainer holding Configure's settings |
| NeuroEvolution.Evolution.RunTrials | Evolution/src/main/java/intersectionmanagement/evolution/Evolution.java:250-264 | runTrials returns exactly Fitness of the trials, and on success draws trials.size() * trialRepetitions random values |
| NeuroEvolution.Evolution.RunRepetitions | Evolution/src/main/java/intersectionmanagement/evolution/Evolution.java:255-260 | the inner loop adds the trial's repetitions to the running total, drawing one seed per repetition |
| NeuroEvolution.Evolution.RunOnce | Evolution/src/main/java/intersectionmanagement/evolution/Evolution.java:257-259 | building the Trial and running it fails with the first error either throws; otherwise the repetition scores its collisions halved, rounded down (Evaluate) |
| NeuroEvolution.Evolution.CalculateCneScore | Evolution/src/main/java/intersectionmanagement/evolution/Evolution.java:268-272 | the cne score is Fitness of the network laid out from the genome |
| NeuroEvolution.Evolution.RunNE | Evolution/src/main/java/intersectionmanagement/evolution/Evolution.java:107-136 | runNE advances the trainer by exactly IterationsRun iterations |

## Left out

- Rendering, input, window handling and timing (`runSimulationRendered`'s drawing, `System.nanoTime`): only the step bookkeeping of the rendered loop is modelled (`RenderedFrame`, `FramesMeaning`).
- Logging everywhere, and the serialisation of the best network that runNE logs each iteration: it has no effect on the loop.
- `finishTraining`, the Encog populations, operators, HyperNEAT substrate, the trainer's selection and the genome scores are Encog's. The trainer is an iteration counter with a given best-score sequence.
- `SerializationUtils.serialize` is a parameter of `CalculateCneScore`. NEATScore.calculateScore is runTrials on the serialized network, that is `RunTrials` itself.
- `Utility.loadResource` and the JSON text: trial files arrive already parsed, and a JSON object is a record of optional, already-typed fields. Type coercions by `getInt`/`getDouble` and malformed JSON are not modelled.
- TrackParser and every actor class (Car, Pedestrian, CarSpawner, PedestrianSpawner): track start nodes are parameters and actor behaviour is an abstract `Behaviour`. The spawning schedules themselves are therefore not modelled.
- java.util.Random is an abstract sequence of values. The simulator's shared random state is an abstract integer threaded through the behaviour.
- Floating point: positions, radii, network weights and the floating-point trial parameters (`randomness` and `period_mul` as doubles, `pedestrian_randomness` as a float) are exact reals, without the float rounding of `getFloat`. `Math.floor(x / 8.0)` and the distance test are computed exactly, and the square root is compared by squaring.
- Concurrency: Encog may score genomes on several threads, and runTrials then shares `random` and mutates the shared trial objects unsynchronised. The model is sequential.
- RunTrials: runTrials writes the network and the seed into the shared trial JSON objects in place. The model builds each repetition's parameters as a value (`RunConfig`), which is what each Trial sees in a sequential run.
- TickEngine.Tick: the 32-bit wrap-around of `collisions`, `finishedCars`, `spawnedCars` and runTrials' `totalCollisions` is not modelled; these counters are unbounded naturals.
- SetupSimpleNN: requires a genome of at least 510 values. The ArrayIndexOutOfBoundsException of a shorter array is not modelled, since the genome factory always creates 510.
- Engine.Simulator.Step: when a tick throws, the state left behind is not specified, as the Java exception abandons the simulator.
- TickEngine.Run: a run of ticks is not proved to compose (running m then n ticks is not shown equal to running m + n).
- generateBasicGenome and getBasicPopulation are Encog population setup; only the genome length of 510 is kept (`GenomeLength`).
- TickEngine.StepActorFacts, TickEngine.TurnFacts, TickEngine.BehavePhaseFrame, TickProperties.PhaseLists, TickProperties.TickPending: these rest on an assumption about the actor classes, which are not part of this model. A `step` is assumed to change only the stepping actor's own state, the shared random state and `spawnedCars`, and to reach the simulator's lists only through addActor/addCar/addPedestrian. A Java actor holds references to its neighbours and to the simulator, so nothing in Simulator.java itself rules out changing them.
- TrialAssembly.SpawnerFactory.GetSpawner: a spawner's position (its start node's x and y), radius 0, and being non-solid and never finished are assumed. The CarSpawner and PedestrianSpawner constructors are not part of this model, and that position decides whether a spawner's first turn fails with MissingBucket.
