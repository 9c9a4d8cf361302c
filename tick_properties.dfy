/** What one tick of Simulator.step() promises about the lists, the counters and the grid,
    proved about TickEngine.Tick (and so, through Engine.Simulator.Step, about the class). */
module TickProperties {
  import opened Basics
  import opened Actors
  import opened SpatialGrid
  import opened TickEngine

  // ---------------------------------------------------------------------------------------
  // Collision detection

  /** Flagging is symmetric: if `a` is flagged because of `o`, then `o` is flagged because of `a`. */
  lemma CollidesWithSymmetric(world: seq<Actor>, a: ActorId, o: ActorId)
    requires a < |world| && o < |world| && CollidesWith(world, a, o)
    ensures CollidesWith(world, o, a)
  {
    var x, y := world[a], world[o];
    assert (x.x - y.x) * (x.x - y.x) == (y.x - x.x) * (y.x - x.x);
    assert (x.y - y.y) * (x.y - y.y) == (y.y - x.y) * (y.y - x.y);
  }

  /** detectCollision(a) holds exactly when `a` is solid and some other solid actor of the
      active list overlaps it; an actor is never flagged because of itself. */
  lemma CollidesMeaning(world: seq<Actor>, ids: seq<ActorId>, a: ActorId)
    requires a < |world| && IdsBelow(ids, |world|)
    ensures Collides(world, ids, a) <==>
            world[a].solid &&
            exists o :: o in ids && o != a && world[o].solid && Overlap(world[a], world[o])
  {
    if world[a].solid && exists o :: o in ids && o != a && world[o].solid && Overlap(world[a], world[o]) {
      var o :| o in ids && o != a && world[o].solid && Overlap(world[a], world[o]);
      var m :| 0 <= m < |ids| && ids[m] == o;
      assert CollidesWith(world, a, ids[m]);
    }
  }

  /** The actors the collision loop flags are exactly the listed ones that detectCollision flags. */
  lemma {:induction false} CollidersMembership(world: seq<Actor>, ids: seq<ActorId>, k: nat, x: ActorId)
    requires IdsBelow(ids, |world|) && k <= |ids|
    ensures x in Colliders(world, ids, k) <==> x in ids[..k] && x < |world| && Collides(world, ids, x)
  {
    if k > 0 {
      CollidersMembership(world, ids, k - 1, x);
      assert ids[..k] == ids[..k - 1] + [ids[k - 1]];
    }
  }

  /** Two different elements make a list of at least two. */
  lemma TwoElements(xs: seq<ActorId>, a: ActorId, o: ActorId)
    requires a in xs && o in xs && a != o
    ensures |xs| >= 2
  {
    var i :| 0 <= i < |xs| && xs[i] == a;
    var j :| 0 <= j < |xs| && xs[j] == o;
    assert i != j;
  }

  /** Collisions come in pairs: the collision loop of one tick never flags exactly one actor,
      so `collisions` never grows by exactly one in a tick. */
  lemma CollidersNeverOne(world: seq<Actor>, ids: seq<ActorId>)
    requires IdsBelow(ids, |world|)
    ensures |Colliders(world, ids, |ids|)| != 1
  {
    var col := Colliders(world, ids, |ids|);
    assert ids[..|ids|] == ids;
    if |col| == 1 {
      var a := col[0];
      CollidersMembership(world, ids, |ids|, a);
      var m :| 0 <= m < |ids| && CollidesWith(world, a, ids[m]);
      var o := ids[m];
      CollidesWithSymmetric(world, a, o);
      assert Collides(world, ids, o) by {
        var n :| 0 <= n < |ids| && ids[n] == a;
        assert CollidesWith(world, o, ids[n]);
      }
      CollidersMembership(world, ids, |ids|, o);
      TwoElements(col, a, o);
    }
  }

  // ---------------------------------------------------------------------------------------
  // A tick, unfolded

  /** An actor that leaves the simulation in the tick that ends in world `w`: one that was
      active and, after the behaviour phase, reports `finished` or is flagged by detectCollision. */
  ghost predicate Removed(s: SimState, w: seq<Actor>, id: ActorId)
    requires IdsBelow(s.actors, |w|)
  {
    id in s.actors && id < |w| && (w[id].finished || Collides(w, s.actors, id))
  }

  lemma DistinctLeft(xs: seq<ActorId>, ys: seq<ActorId>)
    requires Distinct(xs + ys)
    ensures Distinct(xs) && forall x :: x in xs ==> x !in ys
  {
    forall i, j | 0 <= i < j < |xs| ensures xs[i] != xs[j] {
      assert (xs + ys)[i] == xs[i] && (xs + ys)[j] == xs[j];
    }
    forall i, j | 0 <= i < |xs| && 0 <= j < |ys| ensures xs[i] != ys[j] {
      assert (xs + ys)[i] == xs[i] && (xs + ys)[|xs| + j] == ys[j];
    }
  }

  /** The behaviour phase of a tick from a consistent state: what it leaves for Settle. */
  lemma TickBehaviour(s: SimState, b: Behaviour) returns (p: Phase)
    requires Consistent(s) && Tick(s, b).Ok?
    ensures BehavePhase(s, b, |s.actors|).Ok? && p == BehavePhase(s, b, |s.actors|).value
    ensures Fits(p.state) && Tick(s, b) == Settle(p.state, p.removed)
    ensures |s.world| <= |p.state.world| && p.state.actors == s.actors
    ensures p.state.buffer == s.buffer + Range(|s.world|, |p.state.world|)
    ensures p.state.collisions == s.collisions
  {
    TickPhases(s, b);
    p := BehavePhase(s, b, |s.actors|).value;
    BehavePhaseBuffer(s, b, |s.actors|);
  }

  /** The behaviour phase only adds fresh actors to carArray and pedestrianArray, drops
      nobody from them, and changes no actor it does not step. */
  lemma PhaseLists(s: SimState, b: Behaviour)
    requires Consistent(s) && BehavePhase(s, b, |s.actors|).Ok?
    ensures var s1 := BehavePhase(s, b, |s.actors|).value.state;
      && (forall x :: x in s1.cars ==> x in s.cars || |s.world| <= x)
      && (forall x :: x in s1.pedestrians ==> x in s.pedestrians || |s.world| <= x)
      && (forall x :: x in s.cars ==> x in s1.cars)
      && (forall x :: x in s.pedestrians ==> x in s1.pedestrians)
      && (forall i :: 0 <= i < |s.world| && i !in s.actors ==> s1.world[i] == s.world[i])
  {
    BehavePhaseLists(s, b, |s.actors|);
    BehavePhaseFrame(s, b, |s.actors|);
    assert s.actors[..|s.actors|] == s.actors;
  }

  /** The removal list the behaviour phase leaves is the active actors that report
      `finished`, and finishedCars counts them. */
  lemma PhaseFinished(s: SimState, b: Behaviour)
    requires Consistent(s) && BehavePhase(s, b, |s.actors|).Ok?
    ensures var p := BehavePhase(s, b, |s.actors|).value;
      && p.removed == FinishedIn(p.state.world, s.actors)
      && p.state.finishedCars == s.finishedCars + |p.removed|
  {
    DistinctLeft(s.actors, s.buffer);
    BehavePhaseFinished(s, b, |s.actors|);
    assert s.actors[..|s.actors|] == s.actors;
  }

  /** The removal list Settle uses: the finished actors, then the colliders. */
  lemma RemovalList(s: SimState, w: seq<Actor>, id: ActorId)
    requires IdsBelow(s.actors, |w|)
    ensures id in FinishedIn(w, s.actors) + Colliders(w, s.actors, |s.actors|) <==> Removed(s, w, id)
  {
    FinishedInMembership(w, s.actors, id);
    CollidersMembership(w, s.actors, |s.actors|, id);
    assert s.actors[..|s.actors|] == s.actors;
  }

  /** A successful tick from a consistent state, unfolded: the state `s1` after the behaviour
      phase, the removal list, and the settled state built from them. */
  lemma TickParts(s: SimState, b: Behaviour) returns (s1: SimState, removed: seq<ActorId>)
    requires Consistent(s) && Tick(s, b).Ok?
    ensures var t := Tick(s, b).value;
      && Fits(s1) && |s.world| <= |s1.world| && s1.actors == s.actors
      && t.world == s1.world && IdsBelow(s.actors, |t.world|)
      && s1.buffer == s.buffer + Range(|s.world|, |s1.world|)
      && (forall x :: x in s1.cars ==> x in s.cars || |s.world| <= x)
      && (forall x :: x in s1.pedestrians ==> x in s.pedestrians || |s.world| <= x)
      && (forall x :: x in s.cars ==> x in s1.cars)
      && (forall x :: x in s.pedestrians ==> x in s1.pedestrians)
      && (forall i :: 0 <= i < |s.world| && i !in s.actors ==> t.world[i] == s.world[i])
      && (forall id :: id in removed <==> Removed(s, t.world, id))
      && t.actors == RemoveAll(s1.actors + s1.buffer, removed)
      && t.cars == RemoveAll(s1.cars, removed)
      && t.pedestrians == RemoveAll(s1.pedestrians, removed)
      && t.buffer == []
      && t.grid == BuildGrid(t.world, s.actors)
      && t.collisions == s.collisions + |Colliders(t.world, s.actors, |s.actors|)|
      && t.finishedCars == s.finishedCars + |FinishedIn(t.world, s.actors)|
  {
    var p := TickBehaviour(s, b);
    PhaseLists(s, b);
    PhaseFinished(s, b);
    s1 := p.state;
    removed := p.removed + Colliders(s1.world, s1.actors, |s1.actors|);
    forall id: ActorId ensures id in removed <==> Removed(s, s1.world, id) {
      RemovalList(s, s1.world, id);
    }
  }

  // ---------------------------------------------------------------------------------------
  // The properties of a tick

  /** After a tick the buffer is empty, and actorArray holds exactly the actors that were
      active, pending, or allocated during the tick, less those removed in it. In particular
      every pending actor and every actor allocated during the tick is active afterwards. */
  lemma TickActive(s: SimState, b: Behaviour, id: ActorId)
    requires Consistent(s) && Tick(s, b).Ok?
    ensures var t := Tick(s, b).value;
      && IdsBelow(s.actors, |t.world|) && |s.world| <= |t.world|
      && t.buffer == []
      && (id in t.actors <==>
            (id in s.actors || id in s.buffer || |s.world| <= id < |t.world|) && !Removed(s, t.world, id))
  {
    var s1, removed := TickParts(s, b);
    var t := Tick(s, b).value;
    RangeMembership(|s.world|, |s1.world|, id);
    ConcatAssoc(s.actors, s.buffer, Range(|s.world|, |s1.world|));
  }

  /** Pending actors are neither stepped nor collision-checked in the tick: their state is
      untouched and they all join actorArray. */
  lemma TickPending(s: SimState, b: Behaviour, id: ActorId)
    requires Consistent(s) && Tick(s, b).Ok? && id in s.buffer
    ensures var t := Tick(s, b).value;
      id < |s.world| && t.world[id] == s.world[id] && id in t.actors
  {
    var s1, removed := TickParts(s, b);
    DistinctLeft(s.actors, s.buffer);
    TickActive(s, b, id);
  }

  /** An actor removed in a tick leaves actorArray, carArray and pedestrianArray; every car
      and pedestrian that stays listed is active, and no car or pedestrian is listed that was
      not listed before or allocated during the tick. */
  lemma TickLists(s: SimState, b: Behaviour, id: ActorId)
    requires Consistent(s) && Tick(s, b).Ok?
    ensures var t := Tick(s, b).value;
      && IdsBelow(s.actors, |t.world|)
      && (Removed(s, t.world, id) ==> id !in t.actors && id !in t.cars && id !in t.pedestrians)
      && (id in t.cars ==> id in t.actors && (id in s.cars || |s.world| <= id))
      && (id in t.pedestrians ==> id in t.actors && (id in s.pedestrians || |s.world| <= id))
      && (id in s.cars && !Removed(s, t.world, id) ==> id in t.cars)
      && (id in s.pedestrians && !Removed(s, t.world, id) ==> id in t.pedestrians)
  {
    var s1, removed := TickParts(s, b);
    TickConsistent(s, b);
  }

  /** finishedCars grows by exactly the number of actors active at the start of the tick
      that report `finished` after their own step and move. */
  lemma TickFinishedCount(s: SimState, b: Behaviour)
    requires Consistent(s) && Tick(s, b).Ok?
    ensures var t := Tick(s, b).value;
      && IdsBelow(s.actors, |t.world|)
      && t.finishedCars == s.finishedCars + |FinishedIn(t.world, s.actors)|
      && forall id :: id in FinishedIn(t.world, s.actors) <==> id in s.actors && t.world[id].finished
  {
    var s1, removed := TickParts(s, b);
    var t := Tick(s, b).value;
    forall id: ActorId ensures id in FinishedIn(t.world, s.actors) <==> id in s.actors && t.world[id].finished {
      FinishedInMembership(t.world, s.actors, id);
    }
  }

  /** `collisions` grows by the number of active actors that detectCollision flags after
      the behaviour phase, and never by exactly one. */
  lemma TickCollisionCount(s: SimState, b: Behaviour)
    requires Consistent(s) && Tick(s, b).Ok?
    ensures var t := Tick(s, b).value;
      && IdsBelow(s.actors, |t.world|)
      && t.collisions == s.collisions + |Colliders(t.world, s.actors, |s.actors|)|
      && t.collisions != s.collisions + 1
  {
    var s1, removed := TickParts(s, b);
    CollidersNeverOne(Tick(s, b).value.world, s.actors);
  }

  /** After a tick every bucket holds exactly the actors that were active at its start
      (removed ones included) whose cell it is, and nothing else. */
  lemma TickGrid(s: SimState, b: Behaviour, i: int, j: int, id: ActorId)
    requires Consistent(s) && Tick(s, b).Ok?
    ensures var t := Tick(s, b).value;
      && GridShape(t.grid)
      && (id in Cell(t.grid, i, j) <==>
            InSpan(i) && InSpan(j) && id in s.actors && id < |t.world| &&
            CellIndex(t.world[id].x) == i && CellIndex(t.world[id].y) == j)
  {
    var s1, removed := TickParts(s, b);
    var t := Tick(s, b).value;
    RebuiltGridPlacement(t.world, s.actors, i, j, id);
  }

  /** Consistency holds after any number of ticks. */
  lemma {:induction false} RunConsistent(s: SimState, b: Behaviour, n: int)
    requires Consistent(s) && Run(s, b, n).Ok?
    ensures Consistent(Run(s, b, n).value)
    decreases n
  {
    if n > 0 {
      RunConsistent(s, b, n - 1);
      TickConsistent(Run(s, b, n - 1).value, b);
    }
  }
}
