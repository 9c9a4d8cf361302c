/** Simulator.java: the tick engine as a class whose methods update its lists, counters and
    grid in place. Step is proved to leave exactly the state TickEngine.Tick describes. */
module Engine {
  import opened Basics
  import opened Actors
  import opened SpatialGrid
  import opened TickEngine

  class Simulator {
    var world: seq<Actor>
    var actorArray: seq<ActorId>
    var carArray: seq<ActorId>
    var pedestrianArray: seq<ActorId>
    var newActorBuffer: seq<ActorId>
    var collisions: nat
    var finishedCars: nat
    var spawnedCars: nat
    var rng: int
    var actorGrid: Buckets

    function State(): SimState
      reads this
    {
      SimState(world, actorArray, carArray, pedestrianArray, newActorBuffer,
               collisions, finishedCars, spawnedCars, rng, actorGrid)
    }

    ghost predicate Valid()
      reads this
    {
      Consistent(State())
    }

    /** Empty lists, zero counters, and one empty bucket for every (i, j) in -1..50 x -1..50. */
    constructor (rngSeed: int)
      ensures State() == Initial(rngSeed) && Valid()
    {
      rng := rngSeed;
      world, actorArray, carArray, pedestrianArray, newActorBuffer := [], [], [], [], [];
      collisions, finishedCars, spawnedCars := 0, 0, 0;
      var g := EmptyGrid();
      actorGrid := g;
    }

    /** The constructor's outer loop: a column for every index of -1..50. */
    static method EmptyGrid() returns (g: Buckets)
      ensures g == BuildGrid([], [])
    {
      g := map[];
      var i := -1;
      while i < Grid + 1
        invariant -1 <= i <= Grid + 1
        invariant forall c :: c in g <==> -1 <= c < i
        invariant forall c :: -1 <= c < i ==> g[c] == Column([], [], c)
      {
        var column := EmptyColumn(i);
        g := g[i := column];
        i := i + 1;
      }
      GridExtensional(g, [], []);
    }

    /** The constructor's inner loop: an empty bucket for every index of -1..50. */
    static method EmptyColumn(i: int) returns (column: map<int, seq<ActorId>>)
      ensures column == Column([], [], i)
    {
      column := map[];
      var j := -1;
      while j < Grid + 1
        invariant -1 <= j <= Grid + 1
        invariant forall r :: r in column <==> -1 <= r < j
        invariant forall r :: -1 <= r < j ==> column[r] == []
      {
        column := column[j := []];
        j := j + 1;
      }
      ColumnExtensional(column, [], [], i);
    }

    /** addActor: the actor waits in the buffer until the end of the next step. */
    method AddActor(a: Actor) returns (id: ActorId)
      modifies this
      ensures id == old(|world|) && State() == Add(old(State()), Spawn(Plain, a))
      ensures old(Valid()) ==> Valid()
    {
      id := |world|;
      world := world + [a];
      newActorBuffer := newActorBuffer + [id];
      if old(Valid()) {
        AddConsistent(old(State()), Spawn(Plain, a));
      }
    }

    /** addCar: buffered like addActor, and listed in carArray at once. */
    method AddCar(a: Actor) returns (id: ActorId)
      modifies this
      ensures id == old(|world|) && State() == Add(old(State()), Spawn(AsCar, a))
      ensures old(Valid()) ==> Valid()
    {
      id := |world|;
      world := world + [a];
      newActorBuffer := newActorBuffer + [id];
      carArray := carArray + [id];
      if old(Valid()) {
        AddConsistent(old(State()), Spawn(AsCar, a));
      }
    }

    /** addPedestrian: buffered like addActor, and listed in pedestrianArray at once. */
    method AddPedestrian(a: Actor) returns (id: ActorId)
      modifies this
      ensures id == old(|world|) && State() == Add(old(State()), Spawn(AsPedestrian, a))
      ensures old(Valid()) ==> Valid()
    {
      id := |world|;
      world := world + [a];
      newActorBuffer := newActorBuffer + [id];
      pedestrianArray := pedestrianArray + [id];
      if old(Valid()) {
        AddConsistent(old(State()), Spawn(AsPedestrian, a));
      }
    }

    /** Hands one new actor to the entry point its kind names. */
    method Hand(sp: Spawn)
      modifies this
      ensures State() == Add(old(State()), sp)
    {
      match sp.kind
      case Plain => var _ := AddActor(sp.actor);
      case AsCar => var _ := AddCar(sp.actor);
      case AsPedestrian => var _ := AddPedestrian(sp.actor);
    }

    /** detectCollision: scans the whole of actorArray, skipping the actor itself and every
        pair that is not solid on both sides. */
    method DetectCollision(id: ActorId) returns (hit: bool)
      requires Fits(State()) && id < |world|
      ensures hit == Collides(world, actorArray, id)
    {
      var k := 0;
      while k < |actorArray|
        invariant 0 <= k <= |actorArray|
        invariant forall m :: 0 <= m < k ==> !CollidesWith(world, id, actorArray[m])
      {
        var other := actorArray[k];
        k := k + 1;
        if id == other {
          continue;
        }
        if !world[id].solid || !world[other].solid {
          continue;
        }
        if Overlap(world[id], world[other]) {
          return true;
        }
      }
      return false;
    }

    /** putActorsInGrid: empty every bucket, then append each active actor to the bucket of
        its cell; an actor whose bucket does not exist is the NullPointerException. */
    method PutActorsInGrid() returns (ok: bool)
      requires Fits(State()) && GridShape(actorGrid)
      modifies this
      ensures State() == old(State()).(grid := actorGrid)
      ensures ok == AllPlaceable(world, actorArray)
      ensures ok ==> actorGrid == BuildGrid(world, actorArray)
    {
      ClearGrid();
      ok := FillGrid();
    }

    /** The second half of putActorsInGrid: each active actor, in list order, is appended to
        the bucket of its cell. */
    method FillGrid() returns (ok: bool)
      requires Fits(State()) && GridShape(actorGrid) && ClearedUpTo(actorGrid, Grid + 1, -1)
      modifies this
      ensures State() == old(State()).(grid := actorGrid)
      ensures ok == AllPlaceable(world, actorArray)
      ensures ok ==> actorGrid == BuildGrid(world, actorArray)
    {
      var g := actorGrid;
      var k := 0;
      while k < |actorArray|
        invariant 0 <= k <= |actorArray|
        invariant unchanged(this)
        invariant GridShape(g)
        invariant forall c, r :: InSpan(c) && InSpan(r) ==> g[c][r] == Bucket(world, actorArray[..k], c, r)
        invariant forall m :: 0 <= m < k ==> Placeable(world[actorArray[m]])
      {
        var id := actorArray[k];
        var x, y := CellIndex(world[id].x), CellIndex(world[id].y);
        if !(InSpan(x) && InSpan(y)) {
          actorGrid := g;
          return false;
        }
        PlaceNext(g, world, actorArray, k);
        g := g[x := g[x][y := g[x][y] + [id]]];
        k := k + 1;
      }
      assert actorArray[..k] == actorArray;
      GridExtensional(g, world, actorArray);
      actorGrid := g;
      return true;
    }

    /** The first half of putActorsInGrid: every bucket of -1..50 x -1..50 is emptied. */
    method ClearGrid()
      requires GridShape(actorGrid)
      modifies this
      ensures State() == old(State()).(grid := actorGrid)
      ensures GridShape(actorGrid) && ClearedUpTo(actorGrid, Grid + 1, -1)
    {
      var g := actorGrid;
      var i := -1;
      while i < Grid + 1
        invariant -1 <= i <= Grid + 1
        invariant GridShape(g) && ClearedUpTo(g, i, -1)
        invariant unchanged(this)
      {
        var j := -1;
        while j < Grid + 1
          invariant -1 <= j <= Grid + 1
          invariant GridShape(g) && ClearedUpTo(g, i, j)
          invariant unchanged(this)
        {
          ClearNext(g, i, j);
          g := g[i := g[i][j := []]];
          j := j + 1;
        }
        i := i + 1;
      }
      actorGrid := g;
    }

    /** One turn of the first loop of step(): getActorsFromGrid, actor.step (which may hand
        new actors to addActor, addCar or addPedestrian) and actor.moveTowardsTarget. */
    method TakeTurn(b: Behaviour, id: ActorId) returns (ok: bool)
      requires id < |world|
      modifies this
      ensures actorArray == old(actorArray)
      ensures ok == StepActor(old(State()), b, id).Ok?
      ensures ok ==> State() == StepActor(old(State()), b, id).value
      ensures !ok ==> unchanged(this)
    {
      var a := world[id];
      if !Sensable(a) {
        return false;
      }
      var react := b.step(Percept(id, world, Neighbours(actorGrid, CellIndex(a.x), CellIndex(a.y)), rng));
      HandAll(react.spawns);
      world := world[id := b.move(react.next)];
      rng := react.rng;
      spawnedCars := spawnedCars + react.spawned;
      return true;
    }

    /** The actors a step hands over, each to its entry point, in call order. */
    method HandAll(sps: seq<Spawn>)
      modifies this
      ensures State() == AddAll(old(State()), sps)
    {
      var j := 0;
      while j < |sps|
        invariant 0 <= j <= |sps|
        invariant State() == AddAll(old(State()), sps[..j])
      {
        Hand(sps[j]);
        assert sps[..j + 1][..j] == sps[..j];
        j := j + 1;
      }
      assert sps[..j] == sps;
    }

    /** One iteration of the first loop of step(): the turn of actor `id`, after which the
        actor joins the removal list and is counted if it reports `finished`. */
    method BehaveOne(b: Behaviour, id: ActorId, removed: seq<ActorId>)
      returns (ok: bool, removedActorArray: seq<ActorId>)
      requires id < |world|
      modifies this
      ensures actorArray == old(actorArray)
      ensures ok == Turn(Phase(old(State()), removed), b, id).Ok?
      ensures ok ==> Turn(Phase(old(State()), removed), b, id).value == Phase(State(), removedActorArray)
    {
      removedActorArray := removed;
      ok := TakeTurn(b, id);
      if !ok {
        return;
      }
      if world[id].finished {
        removedActorArray := removedActorArray + [id];
        finishedCars := finishedCars + 1;
      }
    }

    /** The first loop of step(): every active actor takes its turn in list order, and one
        that reports `finished` is put on the removal list and counted. */
    method BehaviourLoop(b: Behaviour) returns (ok: bool, removedActorArray: seq<ActorId>)
      requires IdsBelow(actorArray, |world|)
      modifies this
      ensures var r := BehavePhase(old(State()), b, |old(actorArray)|);
        && ok == r.Ok?
        && (ok ==> r.value == Phase(State(), removedActorArray))
    {
      ghost var s0 := State();
      removedActorArray := [];
      ok := true;
      var k := 0;
      while ok && k < |actorArray|
        invariant 0 <= k <= |actorArray|
        invariant IdsBelow(s0.actors, |s0.world|) && actorArray == s0.actors
        invariant ok ==> BehavePhase(s0, b, k) == Ok(Phase(State(), removedActorArray))
        invariant !ok ==> BehavePhase(s0, b, k).Err?
      {
        BehavePhaseNext(s0, b, k);
        ok, removedActorArray := BehaveOne(b, actorArray[k], removedActorArray);
        k := k + 1;
      }
      if !ok {
        BehavePhaseStopped(s0, b, k, |s0.actors|);
      }
    }

    /** The second loop of step(): every active actor that detectCollision flags joins the
        removal list and is counted. */
    method CollisionLoop(removed: seq<ActorId>) returns (removedActorArray: seq<ActorId>)
      requires Fits(State())
      modifies this
      ensures State() == old(State()).(collisions := old(collisions) + |Colliders(old(world), old(actorArray), |old(actorArray)|)|)
      ensures removedActorArray == removed + Colliders(old(world), old(actorArray), |old(actorArray)|)
    {
      removedActorArray := removed;
      var k := 0;
      while k < |actorArray|
        invariant 0 <= k <= |actorArray|
        invariant world == old(world) && actorArray == old(actorArray)
        invariant State() == old(State()).(collisions := old(collisions) + |Colliders(world, actorArray, k)|)
        invariant removedActorArray == removed + Colliders(world, actorArray, k)
      {
        var hit := DetectCollision(actorArray[k]);
        if hit {
          removedActorArray := removedActorArray + [actorArray[k]];
          collisions := collisions + 1;
        }
        k := k + 1;
      }
    }

    /** The rest of step() after the first loop: putActorsInGrid, the collision loop, then
        the buffer joins actorArray and every removed actor leaves all three lists. */
    method SettleStep(removed: seq<ActorId>) returns (ok: bool)
      requires Fits(State()) && GridShape(actorGrid)
      modifies this
      ensures ok == Settle(old(State()), removed).Ok?
      ensures ok ==> State() == Settle(old(State()), removed).value
    {
      ok := PutActorsInGrid();
      if !ok {
        return;
      }
      var removedActorArray := CollisionLoop(removed);
      Merge(removedActorArray);
    }

    /** The end of step(): the buffer joins actorArray, then every removed actor leaves all
        three lists. */
    method Merge(removedActorArray: seq<ActorId>)
      modifies this
      ensures State() == old(State()).(actors := RemoveAll(old(actorArray) + old(newActorBuffer), removedActorArray),
                                       buffer := [],
                                       cars := RemoveAll(old(carArray), removedActorArray),
                                       pedestrians := RemoveAll(old(pedestrianArray), removedActorArray))
    {
      actorArray := actorArray + newActorBuffer;
      newActorBuffer := [];
      actorArray := RemoveAll(actorArray, removedActorArray);
      carArray := RemoveAll(carArray, removedActorArray);
      pedestrianArray := RemoveAll(pedestrianArray, removedActorArray);
    }

    /** step(): the phases of a tick, in the order of Simulator.java. */
    method Step(b: Behaviour) returns (ok: bool)
      requires Valid()
      modifies this
      ensures ok == Tick(old(State()), b).Ok?
      ensures ok ==> State() == Tick(old(State()), b).value && Valid()
    {
      ghost var s0 := State();
      TickPhases(s0, b);
      var removedActorArray;
      ok, removedActorArray := BehaviourLoop(b);
      if !ok {
        return;
      }
      ok := SettleStep(removedActorArray);
      if ok {
        TickConsistent(s0, b);
      }
    }
  }
}
