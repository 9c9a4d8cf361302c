/** Trial.java: a trial's parameters, the spawner factory they configure, and the run of a
    simulator they describe.

    The JSON object of the parameters is a record of optional, already-typed fields: an
    absent key is `None`, and reading it is the JSONException `MissingField`. The two track
    files are read by a parser that is not part of this model; their start-node lists are
    parameters (`None` standing for the IOException). */
module TrialAssembly {
  import opened Basics
  import opened Actors
  import opened SpatialGrid
  import opened TickEngine
  import opened Engine

  /** The "spawner" object of the parameters. */
  datatype SpawnerConfig = SpawnerConfig(
    kind: Option<string>,                  // "type"
    randomness: Option<real>,
    pedestrianRandomness: Option<real>,    // "pedestrian_randomness"
    pedestrianRate: Option<int>,           // "pedestrian_rate"
    period: Option<int>,
    minPeriod: Option<int>,                // "min_period"
    maxPeriod: Option<int>,                // "max_period"
    periodMul: Option<real>)               // "period_mul"

  /** The parameters object a Trial is built from. */
  datatype TrialConfig = TrialConfig(
    seed: Option<int>,
    track: Option<string>,
    steps: Option<int>,
    neuralNetwork: Option<seq<int>>,       // "neural_network"
    spawner: Option<SpawnerConfig>)

  /** SpawnerFactory: what every car spawner of a trial is built with. */
  datatype SpawnerFactory = SpawnerFactory(
    schedule: SpawnFunction,
    weights: Option<seq<int8>>,
    simulationSteps: int,
    params: seq<real>,
    randomDenominator: real)
  {
    /** getSpawner: a car spawner on the start node, carrying the factory's arguments. */
    function GetSpawner(start: Node): (a: Actor)
      ensures a.x == start.x && a.y == start.y && !a.solid && !a.finished
      ensures a.role == CarSpawner(start, weights, simulationSteps, schedule, params, randomDenominator)
    {
      SpawnerAt(start, CarSpawner(start, weights, simulationSteps, schedule, params, randomDenominator))
    }
  }

  /** The fields a successfully constructed Trial holds. */
  datatype Settings = Settings(
    seed: int,
    trackFile: string,
    simulationSteps: int,
    serializedNetwork: Option<seq<int8>>,
    pedestrianRate: int,
    pedestrianRandomness: real,
    factory: SpawnerFactory)

  /** The network as bytes: every value narrowed by Java's `(byte)` cast, in order. */
  function ToBytes(values: seq<int>): (r: seq<int8>)
    ensures |r| == |values|
    ensures forall i :: 0 <= i < |r| ==> (r[i] as int - values[i]) % 256 == 0
    ensures forall i :: 0 <= i < |r| && -128 <= values[i] < 128 ==> r[i] as int == values[i]
  {
    seq(|values|, i requires 0 <= i < |values| => ToByte(values[i]))
  }

  /** The switch on the spawner type: the schedule and its parameter vector, read in the
      order of the case, or the failure for an unknown type or a missing field. */
  function SpawnerParams(kind: string, sp: SpawnerConfig): (r: Result<(SpawnFunction, seq<real>)>)
    ensures kind !in {"constant", "linear", "sin"} ==> r == Err(InvalidSpawnerType(kind))
    ensures kind == "constant" ==>
      if sp.period.None? then r == Err(MissingField("period"))
      else r == Ok((Constant, [sp.period.value as real]))
    ensures kind == "linear" ==>
      if sp.minPeriod.None? then r == Err(MissingField("min_period"))
      else if sp.maxPeriod.None? then r == Err(MissingField("max_period"))
      else r == Ok((Linear, [sp.minPeriod.value as real, sp.maxPeriod.value as real]))
    ensures kind == "sin" ==>
      if sp.periodMul.None? then r == Err(MissingField("period_mul"))
      else if sp.minPeriod.None? then r == Err(MissingField("min_period"))
      else if sp.maxPeriod.None? then r == Err(MissingField("max_period"))
      else r == Ok((Sin, [sp.periodMul.value, sp.minPeriod.value as real, sp.maxPeriod.value as real]))
  {
    match kind
    case "constant" =>
      var period :- Required(sp.period, "period");
      Ok((Constant, [period as real]))
    case "linear" =>
      var lo :- Required(sp.minPeriod, "min_period");
      var hi :- Required(sp.maxPeriod, "max_period");
      Ok((Linear, [lo as real, hi as real]))
    case "sin" =>
      var mul :- Required(sp.periodMul, "period_mul");
      var lo :- Required(sp.minPeriod, "min_period");
      var hi :- Required(sp.maxPeriod, "max_period");
      Ok((Sin, [mul, lo as real, hi as real]))
    case _ => Err(InvalidSpawnerType(kind))
  }

  /** The Trial constructor as a function: every field read in source order, the first
      missing one failing the construction. */
  function Parse(c: TrialConfig): Result<Settings>
  {
    var seed :- Required(c.seed, "seed");
    var track :- Required(c.track, "track");
    var steps :- Required(c.steps, "steps");
    var network := if c.neuralNetwork.Some? then Some(ToBytes(c.neuralNetwork.value)) else None;
    var sp :- Required(c.spawner, "spawner");
    var kind :- Required(sp.kind, "type");
    var randomness :- Required(sp.randomness, "randomness");
    var pedRandomness :- Required(sp.pedestrianRandomness, "pedestrian_randomness");
    var pedRate :- Required(sp.pedestrianRate, "pedestrian_rate");
    var schedule :- SpawnerParams(kind, sp);
    Ok(Settings(seed, track, steps, network, pedRate, pedRandomness,
                SpawnerFactory(schedule.0, network, steps, schedule.1, randomness)))
  }

  /** A successful construction keeps the configured seed, track, step count and pedestrian
      settings, gives the factory the same network bytes and step count, and the schedule
      and parameter vector that the spawner type's own fields give (SpawnerParams). A type other than the three fails,
      once the fields read before the switch are present. */
  lemma ParseMeaning(c: TrialConfig)
    ensures var r := Parse(c);
      && (r.Ok? ==>
            && c.seed == Some(r.value.seed) && c.track == Some(r.value.trackFile)
            && c.steps == Some(r.value.simulationSteps)
            && c.spawner.Some? && c.spawner.value.kind.Some?
            && c.spawner.value.pedestrianRate == Some(r.value.pedestrianRate)
            && c.spawner.value.pedestrianRandomness == Some(r.value.pedestrianRandomness)
            && c.spawner.value.randomness == Some(r.value.factory.randomDenominator)
            && r.value.factory.weights == r.value.serializedNetwork
            && r.value.factory.simulationSteps == r.value.simulationSteps
            && (c.neuralNetwork.None? <==> r.value.serializedNetwork.None?)
            && (c.neuralNetwork.Some? ==> r.value.serializedNetwork.value == ToBytes(c.neuralNetwork.value))
            && var kind := c.spawner.value.kind.value;
            && (kind == "constant" <==> r.value.factory.schedule == Constant)
            && (kind == "constant" ==> |r.value.factory.params| == 1)
            && (kind == "linear" <==> r.value.factory.schedule == Linear)
            && (kind == "linear" ==> |r.value.factory.params| == 2)
            && (kind == "sin" <==> r.value.factory.schedule == Sin)
            && (kind == "sin" ==> |r.value.factory.params| == 3)
            && SpawnerParams(kind, c.spawner.value) == Ok((r.value.factory.schedule, r.value.factory.params)))
      && (c.seed.Some? && c.track.Some? && c.steps.Some? && c.spawner.Some? &&
          c.spawner.value.kind.Some? && c.spawner.value.randomness.Some? &&
          c.spawner.value.pedestrianRandomness.Some? && c.spawner.value.pedestrianRate.Some? &&
          c.spawner.value.kind.value !in {"constant", "linear", "sin"}
          ==> r == Err(InvalidSpawnerType(c.spawner.value.kind.value)))
  {
  }

  /** The pedestrian spawner runSimulation places on a pedestrian start node. */
  function PedestrianSpawnerAt(s: Settings, start: Node): Actor
  {
    SpawnerAt(start, PedestrianSpawner(start, s.simulationSteps, s.pedestrianRate, s.pedestrianRandomness))
  }

  /** One car spawner per vehicle start node, in track order, each handed to addActor. */
  function CarSpawns(f: SpawnerFactory, starts: seq<Node>): (r: seq<Spawn>)
    ensures |r| == |starts|
    ensures forall k :: 0 <= k < |r| ==> r[k] == Spawn(Plain, f.GetSpawner(starts[k]))
  {
    seq(|starts|, k requires 0 <= k < |starts| => Spawn(Plain, f.GetSpawner(starts[k])))
  }

  /** One pedestrian spawner per pedestrian start node, in track order, each handed to addActor. */
  function PedestrianSpawns(s: Settings, starts: seq<Node>): (r: seq<Spawn>)
    ensures |r| == |starts|
    ensures forall k :: 0 <= k < |r| ==> r[k] == Spawn(Plain, PedestrianSpawnerAt(s, starts[k]))
  {
    seq(|starts|, k requires 0 <= k < |starts| => Spawn(Plain, PedestrianSpawnerAt(s, starts[k])))
  }

  /** Car spawners first, then pedestrian spawners. */
  function Spawners(s: Settings, vehicleStarts: seq<Node>, pedestrianStarts: seq<Node>): seq<Spawn>
  {
    CarSpawns(s.factory, vehicleStarts) + PedestrianSpawns(s, pedestrianStarts)
  }

  /** The simulator before its first step. */
  function Assembled(s: Settings, vehicleStarts: seq<Node>, pedestrianStarts: seq<Node>): SimState
  {
    AddAll(Initial(s.seed), Spawners(s, vehicleStarts, pedestrianStarts))
  }

  /** runSimulation as a function: an unreadable track fails, otherwise the assembled
      simulator is stepped `simulationSteps` times (not at all when that is not positive). */
  function Simulate(s: Settings, b: Behaviour, vehicleTrack: Option<seq<Node>>,
                    pedestrianTrack: Option<seq<Node>>): (r: Result<SimState>)
    ensures r.Err? ==> r.error in {TrackUnreadable, MissingBucket}
  {
    if vehicleTrack.None? || pedestrianTrack.None? then Err(TrackUnreadable)
    else
      var s0 := Assembled(s, vehicleTrack.value, pedestrianTrack.value);
      AddAllFacts(Initial(s.seed), Spawners(s, vehicleTrack.value, pedestrianTrack.value));
      Run(s0, b, s.simulationSteps)
  }

  /** Before the first step the spawners are all pending, car spawners first, in track order,
      every car spawner built by the same factory; nothing is active, listed as a car or a
      pedestrian, or counted, and the grid is empty. */
  lemma AssembledMeaning(s: Settings, vehicleStarts: seq<Node>, pedestrianStarts: seq<Node>)
    ensures var a := Assembled(s, vehicleStarts, pedestrianStarts);
      var n, m := |vehicleStarts|, |pedestrianStarts|;
      && Consistent(a)
      && |a.world| == n + m
      && a.actors == [] && a.cars == [] && a.pedestrians == []
      && a.buffer == Range(0, n + m)
      && (forall k :: 0 <= k < n ==> a.world[k] == s.factory.GetSpawner(vehicleStarts[k]))
      && (forall k :: 0 <= k < m ==> a.world[n + k] == PedestrianSpawnerAt(s, pedestrianStarts[k]))
      && a.collisions == 0 && a.finishedCars == 0 && a.spawnedCars == 0 && a.rng == s.seed
      && forall i, j :: InSpan(i) && InSpan(j) ==> a.grid[i][j] == []
  {
    var sps := Spawners(s, vehicleStarts, pedestrianStarts);
    var init := Initial(s.seed);
    AddAllFacts(init, sps);
    AddAllPlain(init, sps);
    AddAllConsistent(init, sps);
    var a := AddAll(init, sps);
    var n := |vehicleStarts|;
    forall k | 0 <= k < n ensures a.world[k] == s.factory.GetSpawner(vehicleStarts[k]) {
      assert sps[k] == CarSpawns(s.factory, vehicleStarts)[k];
    }
    forall k | 0 <= k < |pedestrianStarts| ensures a.world[n + k] == PedestrianSpawnerAt(s, pedestrianStarts[k]) {
      assert sps[n + k] == PedestrianSpawns(s, pedestrianStarts)[k];
    }
  }

  /** Adds through addActor alone leave carArray and pedestrianArray as they were. */
  lemma {:induction false} AddAllPlain(s: SimState, sps: seq<Spawn>)
    requires forall k :: 0 <= k < |sps| ==> sps[k].kind == Plain
    ensures AddAll(s, sps).cars == s.cars && AddAll(s, sps).pedestrians == s.pedestrians
  {
    if sps != [] {
      AddAllPlain(s, sps[..|sps| - 1]);
    }
  }

  /** Any run of adds keeps a consistent simulator consistent. */
  lemma {:induction false} AddAllConsistent(s: SimState, sps: seq<Spawn>)
    requires Consistent(s)
    ensures Consistent(AddAll(s, sps))
  {
    if sps != [] {
      AddAllConsistent(s, sps[..|sps| - 1]);
      AddConsistent(AddAll(s, sps[..|sps| - 1]), sps[|sps| - 1]);
    }
  }

  /** A run of adds extended by one more add. */
  lemma AddAllSnoc(s: SimState, sps: seq<Spawn>, sp: Spawn)
    ensures AddAll(s, sps + [sp]) == Add(AddAll(s, sps), sp)
  {
    assert (sps + [sp])[..|sps|] == sps;
  }

  /** Two runs of adds in a row are one run. */
  lemma {:induction false} AddAllAppend(s: SimState, xs: seq<Spawn>, ys: seq<Spawn>)
    ensures AddAll(AddAll(s, xs), ys) == AddAll(s, xs + ys)
  {
    if ys == [] {
      assert xs + ys == xs;
    } else {
      var init := ys[..|ys| - 1];
      AddAllAppend(s, xs, init);
      assert (xs + ys)[..|xs + ys| - 1] == xs + init;
      assert (xs + ys)[|xs + ys| - 1] == ys[|ys| - 1];
    }
  }

  /** The network-byte loop of the constructor: a fresh byte array, filled element by element. */
  method DecodeNetwork(values: seq<int>) returns (bytes: array<int8>)
    ensures fresh(bytes) && bytes[..] == ToBytes(values)
  {
    bytes := new int8[|values|];
    var i := 0;
    while i < |values|
      invariant 0 <= i <= |values|
      invariant forall k :: 0 <= k < i ==> bytes[k] == ToByte(values[k])
    {
      bytes[i] := ToByte(values[i]);
      i := i + 1;
    }
  }

  class Trial {
    var seed: int
    var trackFile: string
    var spawnerFactory: SpawnerFactory
    var simulationSteps: int
    var serializedNetwork: Option<seq<int8>>
    var pedestrianRate: int
    var pedestrianRandomness: real
    var simulating: bool

    function Current(): Settings
      reads this
    {
      Settings(seed, trackFile, simulationSteps, serializedNetwork, pedestrianRate,
               pedestrianRandomness, spawnerFactory)
    }

    /** The fields of a constructed Trial; `simulating` starts true. */
    constructor (s: Settings)
      ensures Current() == s && simulating
    {
      seed, trackFile, simulationSteps := s.seed, s.trackFile, s.simulationSteps;
      serializedNetwork, pedestrianRate := s.serializedNetwork, s.pedestrianRate;
      pedestrianRandomness, spawnerFactory := s.pedestrianRandomness, s.factory;
      simulating := true;
    }

    /** The Trial(String) constructor: the fields read in source order, the network copied
        byte by byte, then the switch on the spawner type; the first missing field or an
        unknown type fails the construction, and no Trial comes of it. */
    static method FromParameters(c: TrialConfig) returns (r: Result<Trial>)
      ensures r.Ok? == Parse(c).Ok?
      ensures r.Err? ==> r.error == Parse(c).error
      ensures r.Ok? ==> fresh(r.value) && r.value.Current() == Parse(c).value && r.value.simulating
    {
      var seed :- Required(c.seed, "seed");
      var track :- Required(c.track, "track");
      var steps :- Required(c.steps, "steps");
      var network: Option<seq<int8>> := None;
      if c.neuralNetwork.Some? {
        var bytes := DecodeNetwork(c.neuralNetwork.value);
        network := Some(bytes[..]);
      }
      var sp :- Required(c.spawner, "spawner");
      var kind :- Required(sp.kind, "type");
      var randomness :- Required(sp.randomness, "randomness");
      var pedRandomness :- Required(sp.pedestrianRandomness, "pedestrian_randomness");
      var pedRate :- Required(sp.pedestrianRate, "pedestrian_rate");
      var schedule :- SpawnerParams(kind, sp);
      var factory := SpawnerFactory(schedule.0, network, steps, schedule.1, randomness);
      var t := new Trial(Settings(seed, track, steps, network, pedRate, pedRandomness, factory));
      return Ok(t);
    }

    /** runSimulation: a simulator with the configured seed, one car spawner per vehicle start
        node, then one pedestrian spawner per pedestrian start node, all through addActor,
        then exactly `simulationSteps` calls of step. */
    method RunSimulation(b: Behaviour, vehicleTrack: Option<seq<Node>>, pedestrianTrack: Option<seq<Node>>)
      returns (r: Result<Simulator>)
      ensures var spec := Simulate(Current(), b, vehicleTrack, pedestrianTrack);
        && r.Ok? == spec.Ok?
        && (r.Err? ==> r.error == spec.error)
        && (r.Ok? ==> fresh(r.value) && r.value.State() == spec.value && r.value.Valid())
    {
      if vehicleTrack.None? {
        return Err(TrackUnreadable);
      }
      var sim := new Simulator(seed);
      AddCarSpawners(sim, vehicleTrack.value);
      if pedestrianTrack.None? {
        return Err(TrackUnreadable);
      }
      AddPedestrianSpawners(sim, pedestrianTrack.value);
      AddAllAppend(Initial(seed), CarSpawns(spawnerFactory, vehicleTrack.value),
                   PedestrianSpawns(Current(), pedestrianTrack.value));
      var ok := StepRepeatedly(sim, b, simulationSteps);
      if !ok {
        return Err(MissingBucket);
      }
      return Ok(sim);
    }

    /** The first loop of runSimulation: a car spawner per vehicle start node, through addActor. */
    method AddCarSpawners(sim: Simulator, track: seq<Node>)
      requires sim.Valid()
      modifies sim
      ensures sim.Valid() && sim.State() == AddAll(old(sim.State()), CarSpawns(spawnerFactory, track))
    {
      ghost var init := sim.State();
      var k := 0;
      while k < |track|
        invariant 0 <= k <= |track|
        invariant sim.Valid() && sim.State() == AddAll(init, CarSpawns(spawnerFactory, track[..k]))
      {
        var spawn := Spawn(Plain, spawnerFactory.GetSpawner(track[k]));
        AddAllSnoc(init, CarSpawns(spawnerFactory, track[..k]), spawn);
        assert CarSpawns(spawnerFactory, track[..k + 1]) == CarSpawns(spawnerFactory, track[..k]) + [spawn];
        var _ := sim.AddActor(spawn.actor);
        k := k + 1;
      }
      assert track[..k] == track;
    }

    /** The second loop of runSimulation: a pedestrian spawner per pedestrian start node,
        through addActor. */
    method AddPedestrianSpawners(sim: Simulator, track: seq<Node>)
      requires sim.Valid()
      modifies sim
      ensures sim.Valid() && sim.State() == AddAll(old(sim.State()), PedestrianSpawns(Current(), track))
    {
      ghost var init := sim.State();
      var k := 0;
      while k < |track|
        invariant 0 <= k <= |track|
        invariant sim.Valid() && sim.State() == AddAll(init, PedestrianSpawns(Current(), track[..k]))
      {
        var spawn := Spawn(Plain, PedestrianSpawnerAt(Current(), track[k]));
        AddAllSnoc(init, PedestrianSpawns(Current(), track[..k]), spawn);
        assert PedestrianSpawns(Current(), track[..k + 1]) == PedestrianSpawns(Current(), track[..k]) + [spawn];
        var _ := sim.AddActor(spawn.actor);
        k := k + 1;
      }
      assert track[..k] == track;
    }

    /** toggleSimulating: pauses or resumes the rendered loop. */
    method ToggleSimulating()
      modifies this
      ensures simulating == !old(simulating) && Current() == old(Current())
    {
      simulating := !simulating;
    }

    /** One pass of the rendered loop, drawing and input left out: while simulating, one
        step of the simulator, one more step counted, and the pause once the count reaches
        `simulationSteps`. */
    method RenderedFrame(sim: Simulator, b: Behaviour, stepsRun: int) returns (ok: bool, stepsRunAfter: int)
      requires sim.Valid()
      modifies this, sim
      ensures Current() == old(Current())
      ensures ok ==> (simulating, stepsRunAfter) == FrameCount(old(simulating), stepsRun, simulationSteps)
      ensures !old(simulating) ==> ok && unchanged(sim)
      ensures old(simulating) ==> ok == Tick(old(sim.State()), b).Ok?
      ensures old(simulating) && ok ==> sim.State() == Tick(old(sim.State()), b).value && sim.Valid()
    {
      ok, stepsRunAfter := true, stepsRun;
      if simulating {
        ok := sim.Step(b);
        if !ok {
          return;
        }
        stepsRunAfter := stepsRunAfter + 1;
        if stepsRunAfter == simulationSteps {
          simulating := false;
        }
      }
    }
  }

  /** The step loop of runSimulation: `steps` calls of step, the first failing one ending it. */
  method StepRepeatedly(sim: Simulator, b: Behaviour, steps: int) returns (ok: bool)
    requires sim.Valid()
    modifies sim
    ensures ok == Run(old(sim.State()), b, steps).Ok?
    ensures ok ==> sim.State() == Run(old(sim.State()), b, steps).value && sim.Valid()
  {
    ghost var s0 := sim.State();
    var i := 0;
    while i < steps
      invariant i == 0 || 0 < i <= steps
      invariant sim.Valid() && Run(s0, b, i) == Ok(sim.State())
    {
      RunNext(s0, b, i);
      ok := sim.Step(b);
      if !ok {
        RunStopsOnError(s0, b, i + 1, steps);
        return;
      }
      i := i + 1;
    }
    if steps <= 0 {
      assert Run(s0, b, steps) == Run(s0, b, i);
    } else {
      assert i == steps;
    }
    return true;
  }

  /** The bookkeeping of one pass of the rendered loop: the flag and the steps run after it. */
  function FrameCount(simulating: bool, stepsRun: int, steps: int): (bool, int)
  {
    if !simulating then (false, stepsRun)
    else (stepsRun + 1 != steps, stepsRun + 1)
  }

  /** The bookkeeping after `frames` passes of the rendered loop, starting running at zero. */
  function Frames(steps: int, frames: nat): (bool, int)
  {
    if frames == 0 then (true, 0)
    else FrameCount(Frames(steps, frames - 1).0, Frames(steps, frames - 1).1, steps)
  }

  /** Without toggles, the rendered loop steps exactly `steps` times and then pauses for
      good when `steps` is positive; when it is not, the count never meets it and the loop
      never pauses. */
  lemma {:induction false} FramesMeaning(steps: int, frames: nat)
    ensures 0 < steps ==> Frames(steps, frames) == (frames < steps, if frames < steps then frames else steps)
    ensures steps <= 0 ==> Frames(steps, frames) == (true, frames)
  {
    if frames > 0 {
      FramesMeaning(steps, frames - 1);
    }
  }
}
