/** One tick of Simulator.step() as a function on the simulator's whole state.

    The class Engine.Simulator runs the same tick imperatively and is proved to produce
    exactly the state `Tick` gives; the properties of a tick are proved here, about `Tick`. */
module TickEngine {
  import opened Basics
  import opened Actors
  import opened SpatialGrid

  /** The fields of a Simulator object, with `world` holding the state of every actor ever
      allocated (an id is an index into it). */
  datatype SimState = SimState(
    world: seq<Actor>,
    actors: seq<ActorId>,       // actorArray
    cars: seq<ActorId>,         // carArray
    pedestrians: seq<ActorId>,  // pedestrianArray
    buffer: seq<ActorId>,       // newActorBuffer
    collisions: nat,
    finishedCars: nat,
    spawnedCars: nat,
    rng: int,
    grid: Buckets)

  /** Every list names allocated actors. */
  ghost predicate Fits(s: SimState)
  {
    IdsBelow(s.actors, |s.world|) && IdsBelow(s.cars, |s.world|) &&
    IdsBelow(s.pedestrians, |s.world|) && IdsBelow(s.buffer, |s.world|)
  }

  /** The invariant every reachable state keeps: the grid has the 52 x 52 shape the
      constructor gives it, no actor is both active and pending or listed twice, and every
      car and pedestrian is active or pending. */
  ghost predicate Consistent(s: SimState)
  {
    Fits(s) && GridShape(s.grid) && Distinct(s.actors + s.buffer) &&
    (forall id :: id in s.cars ==> id in s.actors || id in s.buffer) &&
    (forall id :: id in s.pedestrians ==> id in s.actors || id in s.buffer)
  }

  /** new Simulator(seed): no actors, zero counters, every bucket of -1..50 x -1..50 empty. */
  function Initial(seed: int): (s: SimState)
    ensures Consistent(s)
    ensures forall i, j :: InSpan(i) && InSpan(j) ==> s.grid[i][j] == []
  {
    SimState([], [], [], [], [], 0, 0, 0, seed, BuildGrid([], []))
  }

  /** addActor / addCar / addPedestrian, with the allocation of the new actor folded in:
      the actor gets the next free id and goes to the pending buffer, and a car or a
      pedestrian also goes straight to its own list. */
  function Add(s: SimState, sp: Spawn): SimState
  {
    var id := |s.world|;
    s.(world := s.world + [sp.actor],
       buffer := s.buffer + [id],
       cars := if sp.kind == AsCar then s.cars + [id] else s.cars,
       pedestrians := if sp.kind == AsPedestrian then s.pedestrians + [id] else s.pedestrians)
  }

  /** The ids lo, lo + 1, ..., hi - 1. */
  function Range(lo: nat, hi: nat): (r: seq<ActorId>)
    requires lo <= hi
    ensures |r| == hi - lo && forall k :: 0 <= k < |r| ==> r[k] == lo + k
  {
    seq(hi - lo, k => lo + k)
  }

  /** A sequence of adds, in call order. */
  function AddAll(s: SimState, sps: seq<Spawn>): (r: SimState)
    ensures |r.world| == |s.world| + |sps|
    ensures r.actors == s.actors && r.grid == s.grid
  {
    if sps == [] then s
    else Add(AddAll(s, sps[..|sps| - 1]), sps[|sps| - 1])
  }

  /** Actor `id` takes its turn of the behaviour phase: it senses the 3x3 block of the grid
      built on the previous tick around its current cell, steps (handing new actors to the
      simulator as it goes), and moves. A cell without its 3x3 block of buckets is the
      NullPointerException of getActorsFromGrid. */
  function StepActor(s: SimState, b: Behaviour, id: ActorId): (r: Result<SimState>)
    requires id < |s.world|
    ensures r.Ok? <==> Sensable(s.world[id])
    ensures r.Ok? ==> |s.world| <= |r.value.world| && r.value.actors == s.actors && r.value.grid == s.grid
    ensures r.Err? ==> r.error == MissingBucket
  {
    var a := s.world[id];
    if !Sensable(a) then Err(MissingBucket)
    else
      var react := b.step(Percept(id, s.world, Neighbours(s.grid, CellIndex(a.x), CellIndex(a.y)), s.rng));
      var s1 := AddAll(s, react.spawns);
      Ok(s1.(world := s1.world[id := b.move(react.next)],
             rng := react.rng,
             spawnedCars := s1.spawnedCars + react.spawned))
  }

  /** The state and the removal list after the first k active actors have had their turn. */
  datatype Phase = Phase(state: SimState, removed: seq<ActorId>)

  /** The turn of actor `id` in the first loop of step(): StepActor, then an actor that
      reports `finished` joins the removal list and counts towards finishedCars. */
  function Turn(p: Phase, b: Behaviour, id: ActorId): (r: Result<Phase>)
    requires id < |p.state.world|
    ensures r.Ok? <==> Sensable(p.state.world[id])
    ensures r.Ok? ==> |p.state.world| <= |r.value.state.world|
    ensures r.Ok? ==> r.value.state.actors == p.state.actors && r.value.state.grid == p.state.grid
    ensures r.Err? ==> r.error == MissingBucket
  {
    match StepActor(p.state, b, id)
    case Err(e) => Err(e)
    case Ok(s) =>
      if s.world[id].finished
      then Ok(Phase(s.(finishedCars := s.finishedCars + 1), p.removed + [id]))
      else Ok(Phase(s, p.removed))
  }

  /** Steps 1 and 2 of a tick for the first k actors of actorArray, in list order. */
  function BehavePhase(s0: SimState, b: Behaviour, k: nat): (r: Result<Phase>)
    requires IdsBelow(s0.actors, |s0.world|) && k <= |s0.actors|
    ensures r.Ok? ==> |s0.world| <= |r.value.state.world|
    ensures r.Ok? ==> r.value.state.actors == s0.actors && r.value.state.grid == s0.grid
    ensures r.Err? ==> r.error == MissingBucket
    decreases k
  {
    if k == 0 then Ok(Phase(s0, []))
    else
      match BehavePhase(s0, b, k - 1)
      case Err(e) => Err(e)
      case Ok(p) => Turn(p, b, s0.actors[k - 1])
  }

  /** Every active actor has a bucket; otherwise putActorsInGrid throws. */
  predicate AllPlaceable(world: seq<Actor>, ids: seq<ActorId>)
    requires IdsBelow(ids, |world|)
  {
    forall k :: 0 <= k < |ids| ==> Placeable(world[ids[k]])
  }

  /** `sqrt(dx*dx + dy*dy) < ra + rb`, stated without the square root. */
  predicate Overlap(a: Actor, b: Actor)
  {
    var dx, dy, reach := a.x - b.x, a.y - b.y, a.radius + b.radius;
    0.0 < reach && dx * dx + dy * dy < reach * reach
  }

  /** Actor `a` is flagged because of actor `o`: two different actors, both solid, overlapping. */
  predicate CollidesWith(world: seq<Actor>, a: ActorId, o: ActorId)
    requires a < |world| && o < |world|
  {
    a != o && world[a].solid && world[o].solid && Overlap(world[a], world[o])
  }

  /** detectCollision(a): some actor of the whole active list flags `a`. */
  predicate Collides(world: seq<Actor>, ids: seq<ActorId>, a: ActorId)
    requires a < |world| && IdsBelow(ids, |world|)
  {
    exists m :: 0 <= m < |ids| && CollidesWith(world, a, ids[m])
  }

  /** The actors among the first k of `ids` that detectCollision flags, in list order. */
  function Colliders(world: seq<Actor>, ids: seq<ActorId>, k: nat): (r: seq<ActorId>)
    requires IdsBelow(ids, |world|) && k <= |ids|
    ensures |r| <= k
  {
    if k == 0 then []
    else
      Colliders(world, ids, k - 1) +
      (if Collides(world, ids, ids[k - 1]) then [ids[k - 1]] else [])
  }

  /** ArrayList.removeAll: drop every occurrence of every listed element, keep the order of the rest. */
  function RemoveAll(xs: seq<ActorId>, gone: seq<ActorId>): (r: seq<ActorId>)
    ensures forall x :: x in r <==> x in xs && x !in gone
    ensures |r| <= |xs|
  {
    if xs == [] then []
    else (if xs[0] in gone then [] else [xs[0]]) + RemoveAll(xs[1..], gone)
  }

  lemma FilteredBelow(r: seq<ActorId>, xs: seq<ActorId>, n: nat)
    requires IdsBelow(xs, n) && forall x :: x in r ==> x in xs
    ensures IdsBelow(r, n)
  {
    forall k | 0 <= k < |r| ensures r[k] < n {
      assert r[k] in xs;
    }
  }

  /** The rest of Simulator.step() after the behaviour phase: rebuild the grid from the
      active actors, flag every active actor that collides, then let the buffer join
      actorArray and drop every removed actor (finished ones first, then colliders) from all
      three lists. An active actor without a bucket is the NullPointerException of
      putActorsInGrid. */
  function Settle(s1: SimState, finished: seq<ActorId>): (r: Result<SimState>)
    requires Fits(s1)
    ensures r.Ok? <==> AllPlaceable(s1.world, s1.actors)
    ensures r.Ok? ==> Fits(r.value)
    ensures r.Err? ==> r.error == MissingBucket
  {
    if !AllPlaceable(s1.world, s1.actors) then Err(MissingBucket)
    else
      var col := Colliders(s1.world, s1.actors, |s1.actors|);
      var removed := finished + col;
      assert IdsBelow(s1.actors + s1.buffer, |s1.world|);
      FilteredBelow(RemoveAll(s1.actors + s1.buffer, removed), s1.actors + s1.buffer, |s1.world|);
      FilteredBelow(RemoveAll(s1.cars, removed), s1.cars, |s1.world|);
      FilteredBelow(RemoveAll(s1.pedestrians, removed), s1.pedestrians, |s1.world|);
      Ok(s1.(grid := BuildGrid(s1.world, s1.actors),
             collisions := s1.collisions + |col|,
             actors := RemoveAll(s1.actors + s1.buffer, removed),
             buffer := [],
             cars := RemoveAll(s1.cars, removed),
             pedestrians := RemoveAll(s1.pedestrians, removed)))
  }

  /** Simulator.step(): the behaviour phase, then Settle. */
  function Tick(s: SimState, b: Behaviour): (r: Result<SimState>)
    requires Fits(s)
    ensures r.Ok? ==> Fits(r.value)
    ensures r.Err? ==> r.error == MissingBucket
  {
    match BehavePhase(s, b, |s.actors|)
    case Err(e) => Err(e)
    case Ok(p) =>
      BehavePhaseFits(s, b, |s.actors|);
      Settle(p.state, p.removed)
  }

  /** n consecutive ticks; the first failing tick ends the run. */
  function Run(s: SimState, b: Behaviour, n: int): (r: Result<SimState>)
    requires Fits(s)
    ensures r.Ok? ==> Fits(r.value)
    ensures r.Err? ==> r.error == MissingBucket
    decreases n
  {
    if n <= 0 then Ok(s)
    else
      match Run(s, b, n - 1)
      case Err(e) => Err(e)
      case Ok(t) => Tick(t, b)
  }

  /** A run of i + 1 ticks is one more tick after a successful run of i. */
  lemma RunNext(s: SimState, b: Behaviour, i: nat)
    requires Fits(s) && Run(s, b, i).Ok?
    ensures Run(s, b, i + 1) == Tick(Run(s, b, i).value, b)
  {
  }

  /** A run whose first i - 1 ticks throw throws. */
  lemma RunFailed(s: SimState, b: Behaviour, i: nat)
    requires Fits(s) && 0 < i && Run(s, b, i - 1).Err?
    ensures Run(s, b, i).Err?
  {
  }

  /** Once a tick throws, the run throws: no later tick is reached. */
  lemma {:induction false} RunStopsOnError(s: SimState, b: Behaviour, n: nat, m: nat)
    requires Fits(s) && n <= m && Run(s, b, n).Err?
    ensures Run(s, b, m).Err?
    decreases m - n
  {
    if n < m {
      assert Run(s, b, m - 1).Err? by { RunStopsOnError(s, b, n, m - 1); }
      RunFailed(s, b, m);
    }
  }

  // ---------------------------------------------------------------------------------------
  // Facts about the pieces of a tick

  /** The ids of `ids` (in order) whose actor reports `finished`. */
  function FinishedIn(world: seq<Actor>, ids: seq<ActorId>): seq<ActorId>
    requires IdsBelow(ids, |world|)
  {
    if ids == [] then []
    else
      var last := ids[|ids| - 1];
      FinishedIn(world, ids[..|ids| - 1]) + (if world[last].finished then [last] else [])
  }

  lemma {:induction false} FinishedInFrame(w1: seq<Actor>, w2: seq<Actor>, ids: seq<ActorId>)
    requires IdsBelow(ids, |w1|) && IdsBelow(ids, |w2|)
    requires forall k :: 0 <= k < |ids| ==> w1[ids[k]] == w2[ids[k]]
    ensures FinishedIn(w1, ids) == FinishedIn(w2, ids)
  {
    if ids != [] {
      FinishedInFrame(w1, w2, ids[..|ids| - 1]);
    }
  }

  lemma {:induction false} FinishedInMembership(world: seq<Actor>, ids: seq<ActorId>, id: ActorId)
    requires IdsBelow(ids, |world|)
    ensures id in FinishedIn(world, ids) <==> id in ids && world[id].finished
  {
    if ids != [] {
      FinishedInMembership(world, ids[..|ids| - 1], id);
      assert ids == ids[..|ids| - 1] + [ids[|ids| - 1]];
    }
  }

  lemma AddConsistent(s: SimState, sp: Spawn)
    requires Consistent(s)
    ensures Consistent(Add(s, sp))
  {
    var t := Add(s, sp);
    var id := |s.world|;
    assert t.actors + t.buffer == (s.actors + s.buffer) + [id];
    assert id !in s.actors + s.buffer;
  }

  lemma RangeMembership(lo: nat, hi: nat, id: ActorId)
    requires lo <= hi
    ensures id in Range(lo, hi) <==> lo <= id < hi
  {
    if lo <= id < hi {
      assert Range(lo, hi)[id - lo] == id;
    }
  }

  /** Consecutive ranges join. */
  lemma RangeJoin(lo: nat, mid: nat, hi: nat)
    requires lo <= mid <= hi
    ensures Range(lo, mid) + Range(mid, hi) == Range(lo, hi)
  {
    var r := Range(lo, mid) + Range(mid, hi);
    forall k | 0 <= k < |r| ensures r[k] == lo + k {
      if k < mid - lo {
        assert r[k] == Range(lo, mid)[k];
      } else {
        assert r[k] == Range(mid, hi)[k - (mid - lo)];
      }
    }
  }

  /** Appending the next free id keeps a list within the grown world. */
  lemma AppendBelow(ids: seq<ActorId>, n: nat)
    requires IdsBelow(ids, n)
    ensures IdsBelow(ids, n + 1) && IdsBelow(ids + [n], n + 1)
  {
  }

  /** A run of adds appends the new actors to the world in call order, queues their ids in
      the buffer in the same order, lists each car and pedestrian in its own list, and
      touches nothing else. */
  lemma {:induction false} AddAllFacts(s: SimState, sps: seq<Spawn>)
    ensures var r := AddAll(s, sps);
      && r.world[..|s.world|] == s.world
      && (forall k :: 0 <= k < |sps| ==> r.world[|s.world| + k] == sps[k].actor)
      && r.buffer == s.buffer + Range(|s.world|, |r.world|)
      && r.rng == s.rng && r.collisions == s.collisions
      && r.finishedCars == s.finishedCars && r.spawnedCars == s.spawnedCars
      && (forall x :: x in r.cars ==> x in s.cars || |s.world| <= x)
      && (forall x :: x in r.pedestrians ==> x in s.pedestrians || |s.world| <= x)
      && (forall x :: x in s.cars ==> x in r.cars)
      && (forall x :: x in s.pedestrians ==> x in r.pedestrians)
      && (Fits(s) ==> Fits(r))
  {
    if sps == [] {
      assert Range(|s.world|, |s.world|) == [];
    } else {
      var init := sps[..|sps| - 1];
      var last := sps[|sps| - 1];
      AddAllFacts(s, init);
      var prev := AddAll(s, init);
      var r := AddAll(s, sps);
      var n := |prev.world|;
      assert r == Add(prev, last);
      assert r.world == prev.world + [last.actor];
      forall k | 0 <= k < |sps| ensures r.world[|s.world| + k] == sps[k].actor {
        if k < |init| {
          assert r.world[|s.world| + k] == prev.world[|s.world| + k];
          assert init[k] == sps[k];
        }
      }
      assert r.world[..|s.world|] == prev.world[..|s.world|];
      RangeJoin(|s.world|, n, n + 1);
      assert Range(n, n + 1) == [n];
      assert r.buffer == prev.buffer + [n];
      if Fits(s) {
        AppendBelow(prev.actors, n);
        AppendBelow(prev.cars, n);
        AppendBelow(prev.pedestrians, n);
        AppendBelow(prev.buffer, n);
      }
    }
  }

  /** One turn of one actor: only that actor and the actors it allocates change, the
      allocated ones are queued in the buffer in order, and the removal counters stay. */
  lemma StepActorFacts(s: SimState, b: Behaviour, id: ActorId)
    requires id < |s.world| && Sensable(s.world[id])
    ensures var r := StepActor(s, b, id).value;
      && (forall i :: 0 <= i < |s.world| && i != id ==> r.world[i] == s.world[i])
      && r.buffer == s.buffer + Range(|s.world|, |r.world|)
      && (forall x :: x in r.cars ==> x in s.cars || |s.world| <= x)
      && (forall x :: x in r.pedestrians ==> x in s.pedestrians || |s.world| <= x)
      && (forall x :: x in s.cars ==> x in r.cars)
      && (forall x :: x in s.pedestrians ==> x in r.pedestrians)
      && r.collisions == s.collisions && r.finishedCars == s.finishedCars
      && (Fits(s) ==> Fits(r))
  {
    var a := s.world[id];
    var react := b.step(Percept(id, s.world, Neighbours(s.grid, CellIndex(a.x), CellIndex(a.y)), s.rng));
    AddAllFacts(s, react.spawns);
    var added := AddAll(s, react.spawns);
    var r := StepActor(s, b, id).value;
    assert r.world == added.world[id := b.move(react.next)];
    forall i | 0 <= i < |s.world| && i != id ensures r.world[i] == s.world[i] {
      assert added.world[..|s.world|][i] == added.world[i];
    }
  }

  /** Once an actor lacks its buckets, the rest of the behaviour phase fails too. */
  lemma {:induction false} BehavePhaseStopped(s0: SimState, b: Behaviour, k: nat, n: nat)
    requires IdsBelow(s0.actors, |s0.world|) && k <= n <= |s0.actors| && BehavePhase(s0, b, k).Err?
    ensures BehavePhase(s0, b, n).Err?
    decreases n - k
  {
    if k < n {
      BehavePhaseStopped(s0, b, k + 1, n);
    }
  }

  /** A turn changes only the actor itself among the existing ones, queues the actors it
      allocates, and records the actor as finished exactly when it reports so. */
  lemma TurnFacts(p: Phase, b: Behaviour, id: ActorId)
    requires id < |p.state.world| && Sensable(p.state.world[id])
    ensures var q := Turn(p, b, id).value; var s := p.state; var t := q.state;
      && (forall i :: 0 <= i < |s.world| && i != id ==> t.world[i] == s.world[i])
      && t.buffer == s.buffer + Range(|s.world|, |t.world|)
      && (forall x :: x in t.cars ==> x in s.cars || |s.world| <= x)
      && (forall x :: x in t.pedestrians ==> x in s.pedestrians || |s.world| <= x)
      && (forall x :: x in s.cars ==> x in t.cars)
      && (forall x :: x in s.pedestrians ==> x in t.pedestrians)
      && t.collisions == s.collisions
      && q.removed == p.removed + (if t.world[id].finished then [id] else [])
      && t.finishedCars == s.finishedCars + |q.removed| - |p.removed|
      && (Fits(s) ==> Fits(t))
  {
    StepActorFacts(p.state, b, id);
  }

  /** A turn keeps every list within the grown world. */
  lemma TurnFits(p: Phase, b: Behaviour, id: ActorId)
    requires id < |p.state.world| && Sensable(p.state.world[id]) && Fits(p.state)
    ensures Fits(Turn(p, b, id).value.state)
  {
    StepActorFacts(p.state, b, id);
  }

  /** The behaviour phase after k + 1 turns, from the phase after k. */
  lemma BehavePhaseNext(s0: SimState, b: Behaviour, k: nat)
    requires IdsBelow(s0.actors, |s0.world|) && k < |s0.actors| && BehavePhase(s0, b, k).Ok?
    ensures s0.actors[k] < |BehavePhase(s0, b, k).value.state.world|
    ensures BehavePhase(s0, b, k + 1) == Turn(BehavePhase(s0, b, k).value, b, s0.actors[k])
  {
  }

  /** The behaviour phase after k turns, as the turn of actor k after the first k - 1. */
  lemma BehavePhaseTurn(s0: SimState, b: Behaviour, k: nat) returns (q: Phase, id: ActorId)
    requires IdsBelow(s0.actors, |s0.world|) && 0 < k <= |s0.actors| && BehavePhase(s0, b, k).Ok?
    ensures BehavePhase(s0, b, k - 1) == Ok(q) && id == s0.actors[k - 1]
    ensures id < |q.state.world| && Sensable(q.state.world[id])
    ensures BehavePhase(s0, b, k) == Turn(q, b, id)
  {
    q, id := BehavePhase(s0, b, k - 1).value, s0.actors[k - 1];
  }

  /** The behaviour phase queues the freshly allocated ids in the buffer in order, and
      counts no collision. */
  lemma {:induction false} BehavePhaseBuffer(s0: SimState, b: Behaviour, k: nat)
    requires IdsBelow(s0.actors, |s0.world|) && k <= |s0.actors| && BehavePhase(s0, b, k).Ok?
    ensures var p := BehavePhase(s0, b, k).value;
      && p.state.buffer == s0.buffer + Range(|s0.world|, |p.state.world|)
      && p.state.collisions == s0.collisions
    decreases k
  {
    if k == 0 {
      assert Range(|s0.world|, |s0.world|) == [];
    } else {
      var q, id := BehavePhaseTurn(s0, b, k);
      BehavePhaseBuffer(s0, b, k - 1);
      TurnFacts(q, b, id);
      var s := Turn(q, b, id).value.state;
      var r1, r2 := Range(|s0.world|, |q.state.world|), Range(|q.state.world|, |s.world|);
      RangeJoin(|s0.world|, |q.state.world|, |s.world|);
      ConcatAssoc(s0.buffer, r1, r2);
      assert BehavePhase(s0, b, k).value.state.buffer == s.buffer;
    }
  }

  lemma PrefixGrows<T>(xs: seq<T>, k: nat)
    requires 0 < k <= |xs|
    ensures xs[..k] == xs[..k - 1] + [xs[k - 1]]
  {
  }

  lemma ConcatAssoc<T>(a: seq<T>, b: seq<T>, c: seq<T>)
    ensures (a + b) + c == a + (b + c)
  {
  }

  /** The behaviour phase only adds to carArray and pedestrianArray, only new actors, and
      drops nobody from them. */
  lemma {:induction false} BehavePhaseLists(s0: SimState, b: Behaviour, k: nat)
    requires IdsBelow(s0.actors, |s0.world|) && k <= |s0.actors| && BehavePhase(s0, b, k).Ok?
    ensures var p := BehavePhase(s0, b, k).value;
      && (forall x :: x in p.state.cars ==> x in s0.cars || |s0.world| <= x)
      && (forall x :: x in p.state.pedestrians ==> x in s0.pedestrians || |s0.world| <= x)
      && (forall x :: x in s0.cars ==> x in p.state.cars)
      && (forall x :: x in s0.pedestrians ==> x in p.state.pedestrians)
    decreases k
  {
    if k > 0 {
      var q, id := BehavePhaseTurn(s0, b, k);
      BehavePhaseLists(s0, b, k - 1);
      TurnFacts(q, b, id);
    }
  }

  /** The behaviour phase keeps every list within the world. */
  lemma {:induction false} BehavePhaseFits(s0: SimState, b: Behaviour, k: nat)
    requires Fits(s0) && k <= |s0.actors| && BehavePhase(s0, b, k).Ok?
    ensures Fits(BehavePhase(s0, b, k).value.state)
    decreases k
  {
    if k > 0 {
      var q, id := BehavePhaseTurn(s0, b, k);
      BehavePhaseFits(s0, b, k - 1);
      TurnFits(q, b, id);
    }
  }

  /** After k turns only the actors stepped so far have changed among the old ones. */
  lemma {:induction false} BehavePhaseFrame(s0: SimState, b: Behaviour, k: nat)
    requires IdsBelow(s0.actors, |s0.world|) && k <= |s0.actors| && BehavePhase(s0, b, k).Ok?
    ensures var p := BehavePhase(s0, b, k).value;
      forall i :: 0 <= i < |s0.world| && i !in s0.actors[..k] ==> p.state.world[i] == s0.world[i]
    decreases k
  {
    if k > 0 {
      var q, id := BehavePhaseTurn(s0, b, k);
      BehavePhaseFrame(s0, b, k - 1);
      TurnFacts(q, b, id);
      var p := BehavePhase(s0, b, k).value;
      PrefixGrows(s0.actors, k);
      forall i | 0 <= i < |s0.world| && i !in s0.actors[..k] ensures p.state.world[i] == s0.world[i] {
        assert i != id && i !in s0.actors[..k - 1];
      }
    }
  }

  /** A turn keeps the removal list equal to the finished actors among those stepped so far,
      and finishedCars counting them, when the actor was not stepped before. */
  lemma TurnFinished(q: Phase, b: Behaviour, id: ActorId, stepped: seq<ActorId>, base: nat)
    requires id < |q.state.world| && Sensable(q.state.world[id])
    requires IdsBelow(stepped, |q.state.world|) && id !in stepped
    requires q.removed == FinishedIn(q.state.world, stepped)
    requires q.state.finishedCars == base + |q.removed|
    ensures var p := Turn(q, b, id).value;
      && IdsBelow(stepped + [id], |p.state.world|)
      && p.removed == FinishedIn(p.state.world, stepped + [id])
      && p.state.finishedCars == base + |p.removed|
  {
    TurnFacts(q, b, id);
    var p := Turn(q, b, id).value;
    forall i | 0 <= i < |stepped| ensures p.state.world[stepped[i]] == q.state.world[stepped[i]] {
      assert stepped[i] in stepped;
    }
    FinishedInFrame(p.state.world, q.state.world, stepped);
    var all := stepped + [id];
    assert all[..|all| - 1] == stepped;
  }

  /** In a list without repeats, no element occurs before its own position. */
  lemma DistinctLast(xs: seq<ActorId>, k: nat)
    requires Distinct(xs) && 0 < k <= |xs|
    ensures xs[k - 1] !in xs[..k - 1]
  {
    var prefix := xs[..k - 1];
    forall i | 0 <= i < |prefix| ensures prefix[i] != xs[k - 1] {
      assert prefix[i] == xs[i];
    }
  }

  /** The removal list of the behaviour phase is exactly the stepped actors that report
      `finished` after their own turn, and finishedCars counts them. */
  lemma {:induction false} BehavePhaseFinished(s0: SimState, b: Behaviour, k: nat)
    requires IdsBelow(s0.actors, |s0.world|) && Distinct(s0.actors)
    requires k <= |s0.actors| && BehavePhase(s0, b, k).Ok?
    ensures var p := BehavePhase(s0, b, k).value;
      && p.removed == FinishedIn(p.state.world, s0.actors[..k])
      && p.state.finishedCars == s0.finishedCars + |p.removed|
    decreases k
  {
    if k > 0 {
      var q, id := BehavePhaseTurn(s0, b, k);
      BehavePhaseFinished(s0, b, k - 1);
      DistinctLast(s0.actors, k);
      TurnFinished(q, b, id, s0.actors[..k - 1], s0.finishedCars);
      PrefixGrows(s0.actors, k);
    }
  }

  lemma {:induction false} RemoveAllDistinct(xs: seq<ActorId>, gone: seq<ActorId>)
    requires Distinct(xs)
    ensures Distinct(RemoveAll(xs, gone))
  {
    if xs != [] {
      RemoveAllDistinct(xs[1..], gone);
      assert xs[0] !in xs[1..];
    }
  }

  /** Fresh ids appended to a list of older ones keep it free of repeats. */
  lemma DistinctAppendRange(xs: seq<ActorId>, lo: nat, hi: nat)
    requires Distinct(xs) && IdsBelow(xs, lo) && lo <= hi
    ensures Distinct(xs + Range(lo, hi))
  {
    var all := xs + Range(lo, hi);
    forall i, j | 0 <= i < j < |all| ensures all[i] != all[j] {
      if j >= |xs| {
        assert all[j] == Range(lo, hi)[j - |xs|];
        if i >= |xs| {
          assert all[i] == Range(lo, hi)[i - |xs|];
        } else {
          assert all[i] == xs[i];
        }
      }
    }
  }

  /** A successful tick, unfolded into its phases. */
  lemma TickPhases(s: SimState, b: Behaviour)
    requires Fits(s)
    ensures Tick(s, b).Ok? ==> BehavePhase(s, b, |s.actors|).Ok?
    ensures BehavePhase(s, b, |s.actors|).Ok? ==>
      var p := BehavePhase(s, b, |s.actors|).value;
      && Fits(p.state)
      && Tick(s, b) == Settle(p.state, p.removed)
  {
    if BehavePhase(s, b, |s.actors|).Ok? {
      BehavePhaseFits(s, b, |s.actors|);
    }
  }

  /** Settling a behaviour phase that only appended fresh ids to the buffer and only fresh
      cars and pedestrians to their lists keeps the state consistent. */
  lemma SettleConsistent(s: SimState, s1: SimState, finished: seq<ActorId>)
    requires Consistent(s) && Fits(s1) && |s.world| <= |s1.world| && s1.actors == s.actors
    requires s1.buffer == s.buffer + Range(|s.world|, |s1.world|)
    requires forall x :: x in s1.cars ==> x in s.cars || |s.world| <= x
    requires forall x :: x in s1.pedestrians ==> x in s.pedestrians || |s.world| <= x
    requires Settle(s1, finished).Ok?
    ensures Consistent(Settle(s1, finished).value)
  {
    var t := Settle(s1, finished).value;
    var removed := finished + Colliders(s1.world, s1.actors, |s1.actors|);
    var newIds := Range(|s.world|, |s1.world|);
    ConcatAssoc(s.actors, s.buffer, newIds);
    var all := s1.actors + s1.buffer;
    assert all == (s.actors + s.buffer) + newIds;
    DistinctAppendRange(s.actors + s.buffer, |s.world|, |s1.world|);
    RemoveAllDistinct(all, removed);
    assert t.actors + t.buffer == t.actors;
    forall id | id in t.cars ensures id in t.actors {
      RangeMembership(|s.world|, |s1.world|, id);
    }
    forall id | id in t.pedestrians ensures id in t.actors {
      RangeMembership(|s.world|, |s1.world|, id);
    }
  }

  /** A tick keeps the state consistent. */
  lemma TickConsistent(s: SimState, b: Behaviour)
    requires Consistent(s) && Tick(s, b).Ok?
    ensures Consistent(Tick(s, b).value)
  {
    TickPhases(s, b);
    var p := BehavePhase(s, b, |s.actors|).value;
    BehavePhaseBuffer(s, b, |s.actors|);
    BehavePhaseLists(s, b, |s.actors|);
    SettleConsistent(s, p.state, p.removed);
  }
}
