/** Evolution.java without Encog: the parameters and the algorithm switch of the
    constructor, the fitness runTrials computes for a serialized network, the cne score, and
    the runNE loop with its early stop.

    The Encog trainer is an object whose only observable behaviour here is its iteration
    count and the score of its best genome after each iteration; java.util.Random is the
    sequence of values its nextInt(Integer.MAX_VALUE) returns. */
module NeuroEvolution {
  import opened Basics
  import opened Actors
  import opened TickEngine
  import opened Engine
  import opened TrialAssembly
  import opened NetworkLayout

  /** Integer.MAX_VALUE, the bound runTrials passes to nextInt. */
  const IntMax: int := 0x7fff_ffff

  /** A value of nextInt(Integer.MAX_VALUE): java.util.Random promises 0 <= v < bound. */
  newtype Seed = v: int | 0 <= v < IntMax

  /** The shared `random` field: the values it will return, and how many it has returned. */
  class RandomSource {
    const stream: nat -> Seed
    var drawn: nat

    constructor (stream: nat -> Seed)
      ensures this.stream == stream && drawn == 0
    {
      this.stream := stream;
      drawn := 0;
    }

    /** nextInt(Integer.MAX_VALUE): the next value of the sequence. */
    method NextInt() returns (v: Seed)
      modifies this
      ensures v == stream(old(drawn)) && drawn == old(drawn) + 1
    {
      v := stream(drawn);
      drawn := drawn + 1;
    }
  }

  /** The TrainEA object: `bestScore(n)` is the score of its best genome once it has run
      `n` iterations. */
  class Trainer {
    const bestScore: nat -> real
    var iteration: nat

    constructor (bestScore: nat -> real)
      ensures this.bestScore == bestScore && iteration == 0
    {
      this.bestScore := bestScore;
      iteration := 0;
    }

    /** iteration(): one more generation. */
    method Iterate()
      modifies this
      ensures iteration == old(iteration) + 1
    {
      iteration := iteration + 1;
    }

    /** getBestGenome().getScore() */
    function BestScore(): real
      reads this
    {
      bestScore(iteration)
    }
  }

  /** What a run of a trial needs from outside the model: the two track parses of a track
      file (`None` for the IOException) and the behaviour of the actors. */
  datatype Externals = Externals(
    vehicleTrack: string -> Option<seq<Node>>,
    pedestrianTrack: string -> Option<seq<Node>>,
    behaviour: Behaviour)

  /** The bytes of the network as the JSON array `put` stores: one number per byte. */
  function NetworkValues(bytes: seq<int8>): (r: seq<int>)
    ensures |r| == |bytes|
    ensures forall i :: 0 <= i < |r| ==> r[i] == bytes[i] as int
  {
    seq(|bytes|, i requires 0 <= i < |bytes| => bytes[i] as int)
  }

  /** The byte decode of Trial undoes the encoding of runTrials: a Trial built from the
      parameters runTrials writes holds exactly the network it was given. */
  lemma NetworkRoundTrip(bytes: seq<int8>)
    ensures ToBytes(NetworkValues(bytes)) == bytes
  {
    var back := ToBytes(NetworkValues(bytes));
    forall i | 0 <= i < |bytes| ensures back[i] == bytes[i] {
      assert back[i] as int == bytes[i] as int;
    }
  }

  /** The parameters of one repetition: the trial's own, with the network and the seed put
      into them. */
  function RunConfig(trial: TrialConfig, network: seq<int8>, seed: Seed): TrialConfig
  {
    trial.(neuralNetwork := Some(NetworkValues(network))).(seed := Some(seed as int))
  }

  /** A Trial built for a repetition has the repetition's seed and exactly the network runTrials
      was given; whether it can be built depends only on the trial's other parameters. */
  lemma RunConfigMeaning(trial: TrialConfig, network: seq<int8>, seed: Seed)
    ensures var p := Parse(RunConfig(trial, network, seed));
      && (p.Ok? ==> p.value.seed == seed as int && 0 <= p.value.seed < IntMax)
      && (p.Ok? ==> p.value.serializedNetwork == Some(network) && p.value.factory.weights == Some(network))
      && (p.Ok? <==> Parse(trial.(seed := Some(0), neuralNetwork := None)).Ok?)
  {
    NetworkRoundTrip(network);
  }

  /** The repetitions of one trial: `reps` of them, seeded with consecutive values of the
      random sequence from position `from`. */
  function Repeats(trial: TrialConfig, reps: nat, network: seq<int8>, stream: nat -> Seed, from: nat)
    : (r: seq<TrialConfig>)
    ensures |r| == reps
    ensures forall i :: 0 <= i < reps ==> r[i] == RunConfig(trial, network, stream(from + i))
  {
    seq(reps, i requires 0 <= i < reps => RunConfig(trial, network, stream(from + i)))
  }

  /** Every repetition of every trial, trial by trial, in the order runTrials builds them. */
  function Runs(trials: seq<TrialConfig>, reps: nat, network: seq<int8>, stream: nat -> Seed, from: nat)
    : seq<TrialConfig>
    decreases |trials|
  {
    if trials == [] then []
    else Repeats(trials[0], reps, network, stream, from) + Runs(trials[1..], reps, network, stream, from + reps)
  }

  /** runTrials builds exactly trials.size() * trialRepetitions Trials. */
  lemma {:induction false} RunsLength(trials: seq<TrialConfig>, reps: nat, network: seq<int8>,
                                      stream: nat -> Seed, from: nat)
    ensures |Runs(trials, reps, network, stream, from)| == |trials| * reps
    decreases |trials|
  {
    if trials != [] {
      RunsLength(trials[1..], reps, network, stream, from + reps);
      assert |trials| * reps == reps + (|trials| - 1) * reps;
    }
  }

  /** One repetition: a Trial from the parameters, runSimulation, and the collisions halved
      (collisions is never negative, so Java's truncating `/ 2` is Dafny's). */
  function Evaluate(config: TrialConfig, ext: Externals): Result<nat>
  {
    var settings :- Parse(config);
    var sim :- Simulate(settings, ext.behaviour, ext.vehicleTrack(settings.trackFile),
                        ext.pedestrianTrack(settings.trackFile));
    Ok(sim.collisions / 2)
  }

  /** The score of every repetition under the same tracks and behaviour. */
  function Scorer(ext: Externals): TrialConfig -> Result<nat>
  {
    config => Evaluate(config, ext)
  }

  /** `score` gives every repetition the score Evaluate gives it. */
  ghost predicate ScoredBy(score: TrialConfig -> Result<nat>, ext: Externals)
  {
    forall c {:trigger Evaluate(c, ext)} :: score(c) == Evaluate(c, ext)
  }

  /** The running total of runTrials after the repetitions `runs`, from the total `acc`
      reached before them; each repetition is scored by `score`, and the first that throws
      ends the run. */
  function TotalFrom(acc: Result<nat>, runs: seq<TrialConfig>, score: TrialConfig -> Result<nat>): Result<nat>
  {
    if runs == [] then acc
    else
      var sum :- TotalFrom(acc, runs[..|runs| - 1], score);
      var half :- score(runs[|runs| - 1]);
      Ok(sum + half)
  }

  /** The total of runTrials over a list of repetitions, from zero. */
  function Total(runs: seq<TrialConfig>, score: TrialConfig -> Result<nat>): Result<nat>
  {
    TotalFrom(Ok(0), runs, score)
  }

  /** The fitness runTrials returns: a negative repetition count runs nothing. */
  function Fitness(trials: seq<TrialConfig>, reps: int, network: seq<int8>, stream: nat -> Seed,
                   from: nat, ext: Externals): Result<nat>
  {
    Total(Runs(trials, if reps < 0 then 0 else reps, network, stream, from), Scorer(ext))
  }

  /** From a total `a`, the run succeeds iff every repetition does; it then ends at `a` or
      above, and exactly at `a` iff every repetition scores zero. */
  lemma {:induction false} TotalFromMeaning(a: nat, runs: seq<TrialConfig>, score: TrialConfig -> Result<nat>)
    ensures TotalFrom(Ok(a), runs, score).Ok? <==> forall k :: 0 <= k < |runs| ==> score(runs[k]).Ok?
    ensures TotalFrom(Ok(a), runs, score).Ok? ==>
      && a <= TotalFrom(Ok(a), runs, score).value
      && (TotalFrom(Ok(a), runs, score).value == a <==> forall k :: 0 <= k < |runs| ==> score(runs[k]) == Ok(0))
  {
    if runs != [] {
      var init := runs[..|runs| - 1];
      TotalFromMeaning(a, init, score);
      forall k | 0 <= k < |init| ensures init[k] == runs[k] { }
    }
  }

  /** runTrials succeeds iff every repetition does; its total is then zero iff no
      repetition has two or more collisions. */
  lemma TotalMeaning(runs: seq<TrialConfig>, score: TrialConfig -> Result<nat>)
    ensures Total(runs, score).Ok? <==> forall k :: 0 <= k < |runs| ==> score(runs[k]).Ok?
    ensures Total(runs, score).Ok? ==>
      (Total(runs, score).value == 0 <==> forall k :: 0 <= k < |runs| ==> score(runs[k]) == Ok(0))
  {
    TotalFromMeaning(0, runs, score);
  }

  /** Once a repetition has thrown, the later ones change nothing. */
  lemma {:induction false} TotalFromFailed(acc: Result<nat>, runs: seq<TrialConfig>, score: TrialConfig -> Result<nat>)
    requires acc.Err?
    ensures TotalFrom(acc, runs, score) == acc
  {
    if runs != [] {
      TotalFromFailed(acc, runs[..|runs| - 1], score);
    }
  }

  /** Running two lists of repetitions one after the other is running their concatenation. */
  lemma {:induction false} TotalFromAppend(acc: Result<nat>, xs: seq<TrialConfig>, ys: seq<TrialConfig>,
                                           score: TrialConfig -> Result<nat>)
    ensures TotalFrom(acc, xs + ys, score) == TotalFrom(TotalFrom(acc, xs, score), ys, score)
  {
    if ys == [] {
      assert xs + ys == xs;
    } else {
      var init := ys[..|ys| - 1];
      TotalFromAppend(acc, xs, init, score);
      assert (xs + ys)[..|xs + ys| - 1] == xs + init;
      assert (xs + ys)[|xs + ys| - 1] == ys[|ys| - 1];
    }
  }

  /** A run of repetitions that throws makes every run it starts throw the same exception. */
  lemma TotalPrefixFails(acc: Result<nat>, xs: seq<TrialConfig>, ys: seq<TrialConfig>,
                         score: TrialConfig -> Result<nat>)
    requires xs <= ys && TotalFrom(acc, xs, score).Err?
    ensures TotalFrom(acc, ys, score) == TotalFrom(acc, xs, score)
  {
    assert ys == xs + ys[|xs|..];
    TotalFromAppend(acc, xs, ys[|xs|..], score);
    TotalFromFailed(TotalFrom(acc, xs, score), ys[|xs|..], score);
  }

  /** One more repetition: the total of a longer run, in terms of the total so far. */
  lemma TotalSnoc(acc: Result<nat>, xs: seq<TrialConfig>, c: TrialConfig, score: TrialConfig -> Result<nat>)
    ensures TotalFrom(acc, xs + [c], score) ==
      if TotalFrom(acc, xs, score).Err? then TotalFrom(acc, xs, score)
      else if score(c).Err? then Err(score(c).error)
      else Ok(TotalFrom(acc, xs, score).value + score(c).value)
  {
    assert (xs + [c])[..|xs|] == xs;
  }

  /** One more repetition of a trial, seeded with the next value. */
  lemma RepeatsSnoc(trial: TrialConfig, i: nat, network: seq<int8>, stream: nat -> Seed, f: nat, seed: Seed)
    requires seed == stream(f + i)
    ensures Repeats(trial, i + 1, network, stream, f) ==
      Repeats(trial, i, network, stream, f) + [trial.(neuralNetwork := Some(NetworkValues(network))).(seed := Some(seed as int))]
  {
  }

  /** The runs of the first t + 1 trials extend those of the first t. */
  lemma {:induction false} RunsSnoc(trials: seq<TrialConfig>, reps: nat, network: seq<int8>,
                                    stream: nat -> Seed, from: nat, t: nat)
    requires t < |trials|
    ensures Runs(trials[..t + 1], reps, network, stream, from) ==
      Runs(trials[..t], reps, network, stream, from) +
      Repeats(trials[t], reps, network, stream, from + |Runs(trials[..t], reps, network, stream, from)|)
    decreases t
  {
    if t == 0 {
      assert trials[..1][1..] == [];
    } else {
      var rest := trials[1..];
      RunsSnoc(rest, reps, network, stream, from + reps, t - 1);
      assert trials[..t + 1][1..] == rest[..t];
      assert trials[..t][1..] == rest[..t - 1];
    }
  }

  /** The runs of all trials are those of the first t followed by those of the rest: the
      repetitions are grouped trial by trial, in trial order, on consecutive random values. */
  lemma {:induction false} RunsSplit(trials: seq<TrialConfig>, reps: nat, network: seq<int8>,
                                     stream: nat -> Seed, from: nat, t: nat)
    requires t <= |trials|
    ensures Runs(trials, reps, network, stream, from) ==
      Runs(trials[..t], reps, network, stream, from) +
      Runs(trials[t..], reps, network, stream, from + |Runs(trials[..t], reps, network, stream, from)|)
    decreases t
  {
    if t == 0 {
      assert trials[..0] == [] && trials[0..] == trials;
    } else {
      var rest := trials[1..];
      RunsSplit(rest, reps, network, stream, from + reps, t - 1);
      assert trials[..t][1..] == rest[..t - 1];
      assert rest[t - 1..] == trials[t..];
    }
  }

  /** One trial's repetitions on top of the runs of the trials before it: the total of
      the first t + 1 trials, the random values they draw, and, when that trial's
      repetitions throw, the outcome of the whole of runTrials. */
  lemma RunsStep(trials: seq<TrialConfig>, reps: nat, network: seq<int8>, stream: nat -> Seed,
                 from: nat, t: nat, score: TrialConfig -> Result<nat>, total: nat, drawn: nat, sum: Result<nat>)
    requires t < |trials|
    requires Total(Runs(trials[..t], reps, network, stream, from), score) == Ok(total)
    requires drawn == from + |Runs(trials[..t], reps, network, stream, from)|
    requires sum == TotalFrom(Ok(total), Repeats(trials[t], reps, network, stream, drawn), score)
    ensures Total(Runs(trials[..t + 1], reps, network, stream, from), score) == sum
    ensures |Runs(trials[..t + 1], reps, network, stream, from)| == |Runs(trials[..t], reps, network, stream, from)| + reps
    ensures sum.Err? ==> Total(Runs(trials, reps, network, stream, from), score) == sum
  {
    var before := Runs(trials[..t], reps, network, stream, from);
    var next := Runs(trials[..t + 1], reps, network, stream, from);
    var repeats := Repeats(trials[t], reps, network, stream, drawn);
    RunsSnoc(trials, reps, network, stream, from, t);
    assert next == before + repeats;
    TotalFromAppend(Ok(0), before, repeats, score);
    assert TotalFrom(Ok(0), next, score) == sum;
    if sum.Err? {
      RunsPrefix(trials, reps, network, stream, from, t + 1);
      TotalPrefixFails(Ok(0), next, Runs(trials, reps, network, stream, from), score);
    }
  }

  /** The repetitions of the first t trials come first among those of all trials. */
  lemma RunsPrefix(trials: seq<TrialConfig>, reps: nat, network: seq<int8>, stream: nat -> Seed,
                   from: nat, t: nat)
    requires t <= |trials|
    ensures Runs(trials[..t], reps, network, stream, from) <= Runs(trials, reps, network, stream, from)
  {
    RunsSplit(trials, reps, network, stream, from, t);
  }

  /** The first i repetitions of a trial come first among all `reps` of them. */
  lemma RepeatsPrefix(trial: TrialConfig, i: nat, reps: nat, network: seq<int8>, stream: nat -> Seed, from: nat)
    requires i <= reps
    ensures Repeats(trial, i, network, stream, from) <= Repeats(trial, reps, network, stream, from)
  {
  }

  /** The algorithm names the constructor accepts. */
  datatype Algorithm = Cne | Neat | HyperNeat

  /** The switch on the algorithm name. */
  function AlgorithmNamed(name: string): (r: Result<Algorithm>)
    ensures name == "cne" <==> r == Ok(Cne)
    ensures name == "neat" <==> r == Ok(Neat)
    ensures name == "hyperneat" <==> r == Ok(HyperNeat)
    ensures r.Err? ==> r.error == InvalidAlgorithm(name)
  {
    match name
    case "cne" => Ok(Cne)
    case "neat" => Ok(Neat)
    case "hyperneat" => Ok(HyperNeat)
    case _ => Err(InvalidAlgorithm(name))
  }

  /** The score class each algorithm trains with. */
  datatype ScoreKind = CNEScore | NEATScore

  function ScoreOf(a: Algorithm): (k: ScoreKind)
    ensures k == CNEScore <==> a == Cne
  {
    if a == Cne then CNEScore else NEATScore
  }

  /** shouldMinimize: every score is a collision count, so both score classes minimise. */
  function ShouldMinimize(k: ScoreKind): (m: bool)
    ensures m
  {
    match k
    case CNEScore => true
    case NEATScore => true
  }

  /** The evolution parameters object; each trial file is already loaded and parsed. */
  datatype EvolutionConfig = EvolutionConfig(
    trialRepetitions: Option<int>,        // "trial_repetitions"
    iterations: Option<int>,
    population: Option<int>,
    trials: Option<seq<TrialConfig>>)

  /** The fields a successfully constructed Evolution holds. */
  datatype EvolutionSettings = EvolutionSettings(
    trialRepetitions: int,
    iterations: int,
    populationSize: int,
    trials: seq<TrialConfig>,
    algorithm: Algorithm)

  /** The Evolution constructor as a function: the parameters read in source order, then the
      switch on the algorithm name. */
  function Configure(algorithm: string, c: EvolutionConfig): (r: Result<EvolutionSettings>)
    ensures r.Ok? ==>
      && Some(r.value.trialRepetitions) == c.trialRepetitions
      && Some(r.value.iterations) == c.iterations && Some(r.value.populationSize) == c.population
      && Some(r.value.trials) == c.trials && AlgorithmNamed(algorithm) == Ok(r.value.algorithm)
    ensures c.trialRepetitions.Some? && c.iterations.Some? && c.population.Some? && c.trials.Some?
      ==> (r.Ok? <==> algorithm in {"cne", "neat", "hyperneat"})
  {
    var reps :- Required(c.trialRepetitions, "trial_repetitions");
    var iterations :- Required(c.iterations, "iterations");
    var population :- Required(c.population, "population");
    var trials :- Required(c.trials, "trials");
    var a :- AlgorithmNamed(algorithm);
    Ok(EvolutionSettings(reps, iterations, population, trials, a))
  }

  /** How many iterations runNE performs when the trainer has run `base` before the call and
      its loop counter is at i: it stops at `iterations`, or right after an iteration that
      leaves a best score of zero. */
  function IterationsRun(iterations: int, bestScore: nat -> real, base: nat, i: nat): nat
    decreases iterations - i
  {
    if iterations <= i then i
    else if bestScore(base + i + 1) == 0.0 then i + 1
    else IterationsRun(iterations, bestScore, base, i + 1)
  }

  /** runNE from loop counter i onwards runs no more than `iterations` in all, passes no
      iteration that reached a zero score, and ends early only just after one that did. */
  lemma {:induction false} EarlyStopFrom(iterations: int, bestScore: nat -> real, base: nat, i: nat)
    ensures var n := IterationsRun(iterations, bestScore, base, i);
      && i <= n && (n == i || n <= iterations)
      && (forall k :: base + i < k < base + n ==> bestScore(k) != 0.0)
      && (n < iterations ==> i < n && bestScore(base + n) == 0.0)
    decreases iterations - i
  {
    if i < iterations && bestScore(base + i + 1) != 0.0 {
      EarlyStopFrom(iterations, bestScore, base, i + 1);
    }
  }

  /** runNE runs at most `iterations` iterations, every one but the last with a nonzero best
      score, and stops before `iterations` only right after a zero score. */
  lemma EarlyStop(iterations: int, bestScore: nat -> real, base: nat)
    ensures var n := IterationsRun(iterations, bestScore, base, 0);
      && n <= (if iterations < 0 then 0 else iterations)
      && (0 < iterations ==> 0 < n)
      && (forall k :: base < k < base + n ==> bestScore(k) != 0.0)
      && (n < iterations ==> bestScore(base + n) == 0.0)
  {
    EarlyStopFrom(iterations, bestScore, base, 0);
  }

  class Evolution {
    var trialRepetitions: int
    var iterations: int
    var populationSize: int
    var trials: seq<TrialConfig>
    var neatTopology: bool
    var score: ScoreKind
    const random: RandomSource
    const evolution: Trainer

    /** The fields the constructor sets once its reads and switch have succeeded; the
        population, the operators and the trainer are Encog's, and the trainer is given. */
    constructor (s: EvolutionSettings, random: RandomSource, evolution: Trainer)
      ensures trialRepetitions == s.trialRepetitions && iterations == s.iterations
      ensures populationSize == s.populationSize && trials == s.trials
      ensures neatTopology == (s.algorithm != Cne) && score == ScoreOf(s.algorithm)
      ensures this.random == random && this.evolution == evolution
    {
      trialRepetitions, iterations, populationSize := s.trialRepetitions, s.iterations, s.populationSize;
      trials := s.trials;
      neatTopology := s.algorithm != Cne;
      score := ScoreOf(s.algorithm);
      this.random, this.evolution := random, evolution;
    }

    /** Evolution(algorithm, parameters, name): the reads in source order, then the switch;
        an unknown algorithm throws. */
    static method FromParameters(algorithm: string, c: EvolutionConfig, stream: nat -> Seed,
                                 bestScore: nat -> real) returns (r: Result<Evolution>)
      ensures r.Ok? == Configure(algorithm, c).Ok?
      ensures r.Err? ==> r.error == Configure(algorithm, c).error
      ensures r.Ok? ==> fresh(r.value) && fresh(r.value.random) && fresh(r.value.evolution)
      ensures r.Ok? ==> var s := Configure(algorithm, c).value;
        && r.value.trials == s.trials && r.value.trialRepetitions == s.trialRepetitions
        && r.value.iterations == s.iterations && r.value.populationSize == s.populationSize
        && r.value.neatTopology == (s.algorithm != Cne) && r.value.score == ScoreOf(s.algorithm)
        && r.value.random.drawn == 0 && r.value.random.stream == stream
        && r.value.evolution.iteration == 0 && r.value.evolution.bestScore == bestScore
    {
      var reps :- Required(c.trialRepetitions, "trial_repetitions");
      var iterations :- Required(c.iterations, "iterations");
      var population :- Required(c.population, "population");
      var trials :- Required(c.trials, "trials");
      var a :- AlgorithmNamed(algorithm);
      var random := new RandomSource(stream);
      var trainer := new Trainer(bestScore);
      var e := new Evolution(EvolutionSettings(reps, iterations, population, trials, a), random, trainer);
      return Ok(e);
    }

    /** runTrials: every trial, `trialRepetitions` times, with the network and the next random
        seed put into its parameters; each repetition adds half its collisions. A Trial or a
        simulation that throws ends it. */
    method RunTrials(network: seq<int8>, ext: Externals) returns (r: Result<nat>)
      modifies random
      ensures r == Fitness(trials, trialRepetitions, network, random.stream, old(random.drawn), ext)
      ensures r.Ok? ==> random.drawn == old(random.drawn) + |trials| * (if trialRepetitions < 0 then 0 else trialRepetitions)
    {
      var reps: nat := if trialRepetitions < 0 then 0 else trialRepetitions;
      var all := trials;
      ghost var from := random.drawn;
      ghost var stream := random.stream;
      ghost var score := Scorer(ext);
      assert ScoredBy(score, ext);
      var totalCollisions: nat := 0;
      for t := 0 to |all|
        invariant Total(Runs(all[..t], reps, network, stream, from), score) == Ok(totalCollisions)
        invariant random.drawn == from + |Runs(all[..t], reps, network, stream, from)|
      {
        ghost var drawn := random.drawn;
        var sum := RunRepetitions(all[t], reps, network, ext, score, totalCollisions);
        RunsStep(all, reps, network, stream, from, t, score, totalCollisions, drawn, sum);
        if sum.Err? {
          return sum;
        }
        totalCollisions := sum.value;
      }
      assert all[..|all|] == all;
      RunsLength(all, reps, network, stream, from);
      return Ok(totalCollisions);
    }

    /** The inner loop of runTrials: `reps` repetitions of one trial with the network put
        into it, each with the next random seed, on top of the total so far. */
    method RunRepetitions(trial: TrialConfig, reps: nat, network: seq<int8>, ext: Externals,
                          ghost score: TrialConfig -> Result<nat>, total: nat)
      returns (r: Result<nat>)
      requires ScoredBy(score, ext)
      modifies random
      ensures r == TotalFrom(Ok(total), Repeats(trial, reps, network, random.stream, old(random.drawn)), score)
      ensures r.Ok? ==> random.drawn == old(random.drawn) + reps
    {
      ghost var f := random.drawn;
      var stamped := trial.(neuralNetwork := Some(NetworkValues(network)));
      var totalAfter: nat := total;
      for i := 0 to reps
        invariant random.drawn == f + i
        invariant TotalFrom(Ok(total), Repeats(trial, i, network, random.stream, f), score) == Ok(totalAfter)
      {
        var seed := random.NextInt();
        var config := stamped.(seed := Some(seed as int));
        ghost var sofar := Repeats(trial, i, network, random.stream, f);
        RepeatsSnoc(trial, i, network, random.stream, f, seed);
        TotalSnoc(Ok(total), sofar, config, score);
        var half := ScoreRepetition(config, ext, score);
        if half.Err? {
          RepeatsPrefix(trial, i + 1, reps, network, random.stream, f);
          TotalPrefixFails(Ok(total), sofar + [config], Repeats(trial, reps, network, random.stream, f), score);
          return Err(half.error);
        }
        totalAfter := totalAfter + half.value;
      }
      return Ok(totalAfter);
    }

    /** One repetition, scored as `score` says Evaluate scores it. */
    static method ScoreRepetition(config: TrialConfig, ext: Externals, ghost score: TrialConfig -> Result<nat>)
      returns (r: Result<nat>)
      requires ScoredBy(score, ext)
      ensures r == score(config)
    {
      r := RunOnce(config, ext);
    }

    /** `new Trial(trial.toString())`, runSimulation, and `sim.collisions / 2`. */
    static method RunOnce(config: TrialConfig, ext: Externals) returns (r: Result<nat>)
      ensures r == Evaluate(config, ext)
    {
      var client := Trial.FromParameters(config);
      if client.Err? {
        return Err(client.error);
      }
      var trial := client.value;
      var sim := trial.RunSimulation(ext.behaviour, ext.vehicleTrack(trial.trackFile),
                                     ext.pedestrianTrack(trial.trackFile));
      if sim.Err? {
        return Err(sim.error);
      }
      return Ok(sim.value.collisions / 2);
    }

    /** CNEScore.calculateScore: the genome laid onto the simple network, serialized, and
        scored by runTrials. */
    method CalculateCneScore(genome: seq<real>, serialize: map<Slot, real> -> seq<int8>, ext: Externals)
      returns (r: Result<nat>)
      requires |genome| >= GenomeLength
      modifies random
      ensures r == Fitness(trials, trialRepetitions, serialize(Layout(genome)), random.stream, old(random.drawn), ext)
    {
      var nn := SetupSimpleNN(genome);
      r := RunTrials(serialize(nn.weights), ext);
    }

    /** runNE: up to `iterations` trainer iterations, stopping right after one whose best
        genome scores zero. */
    method RunNE()
      modifies evolution
      ensures evolution.iteration == old(evolution.iteration) + IterationsRun(iterations, evolution.bestScore, old(evolution.iteration), 0)
    {
      ghost var base := evolution.iteration;
      var i := 0;
      while i < iterations
        invariant i == 0 || i <= iterations
        invariant evolution.iteration == base + i
        invariant IterationsRun(iterations, evolution.bestScore, base, i) == IterationsRun(iterations, evolution.bestScore, base, 0)
      {
        evolution.Iterate();
        if evolution.BestScore() == 0.0 {
          break;
        }
        i := i + 1;
      }
    }
  }
}
