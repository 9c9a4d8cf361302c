/** The actors the simulator steps, and the abstract behaviour that moves them.

    The Java actor classes (Car, Pedestrian, CarSpawner, PedestrianSpawner) are not part of
    this model: an actor here is the state the simulator itself reads (position, radius,
    `solid`, `finished`) plus a role that carries the construction arguments of the spawners
    and an opaque state for everything else. What an actor does in a tick is a parameter. */
module Actors {
  import opened Basics

  /** Index of an actor in the simulator's world; plays the part of a Java object reference. */
  type ActorId = nat

  /** An entry node of a track: its name and where it lies in the arena. */
  datatype Node = Node(name: string, x: real, y: real)

  /** The period schedule of a car spawner (CarSpawner.Function). */
  datatype SpawnFunction = Constant | Linear | Sin

  datatype Role =
    | CarSpawner(start: Node, weights: Option<seq<int8>>, steps: int,
                 schedule: SpawnFunction, params: seq<real>, randomDenominator: real)
    | PedestrianSpawner(start: Node, steps: int, rate: int, randomness: real)
    | Vehicle(memory: seq<real>)
    | Walker(memory: seq<real>)

  datatype Actor = Actor(x: real, y: real, radius: real, solid: bool, finished: bool, role: Role)

  /** Which of the simulator's three entry points a new actor is handed to:
      addActor, addCar or addPedestrian. */
  datatype SpawnKind = Plain | AsCar | AsPedestrian

  datatype Spawn = Spawn(kind: SpawnKind, actor: Actor)

  /** What an actor sees when it is stepped: its own id, the live state of every actor,
      the ids found in the 3x3 grid block around it, and the shared random state. */
  datatype Percept = Percept(self: ActorId, world: seq<Actor>, neighbours: seq<ActorId>, rng: int)

  /** What a step produces: the actor's own next state, the actors it hands to the
      simulator (in call order), the random state after its draws, and how much it adds
      to the public `spawnedCars` counter. */
  datatype Reaction = Reaction(next: Actor, spawns: seq<Spawn>, rng: int, spawned: nat)

  /** `step` is Actor.step(neighbours), `move` is Actor.moveTowardsTarget(). */
  datatype Behaviour = Behaviour(step: Percept -> Reaction, move: Actor -> Actor)

  /** Spawners are placed on their start node; they never collide and never finish. */
  function SpawnerAt(start: Node, role: Role): Actor
  {
    Actor(start.x, start.y, 0.0, false, false, role)
  }

  /** Every id in `ids` names an actor of a world of size `n`. */
  predicate IdsBelow(ids: seq<ActorId>, n: nat)
  {
    forall k :: 0 <= k < |ids| ==> ids[k] < n
  }

  /** No id occurs twice. */
  predicate Distinct(ids: seq<ActorId>)
  {
    forall i, j :: 0 <= i < j < |ids| ==> ids[i] != ids[j]
  }
}
