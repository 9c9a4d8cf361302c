/** The bucket grid of Simulator.java: 52 x 52 buckets indexed -1..50 on both axes over a
    400 x 400 arena, cell size 400 / 50 = 8. Positions are exact reals here. */
module SpatialGrid {
  import opened Actors

  const Grid: int := 50

  /** The bucket index of a coordinate: the floor of v divided by the cell size, which is
      the arena side 400 over `Grid`, that is 8. The literal keeps the division linear. */
  function CellIndex(v: real): int
  {
    (v / 8.0).Floor
  }

  /** The nested HashMap actorGrid: column index, then row index, then the bucket. */
  type Buckets = map<int, map<int, seq<ActorId>>>

  /** The bucket keys the constructor creates: -1 up to and including `grid`. */
  predicate InSpan(k: int)
  {
    -1 <= k <= Grid
  }

  /** The shape the constructor gives the grid: a column for every index of -1..50, and in
      each column a bucket for every index of -1..50. */
  ghost predicate GridShape(g: Buckets)
  {
    (forall i :: i in g <==> InSpan(i)) &&
    (forall i, j :: i in g ==> (j in g[i] <==> InSpan(j)))
  }

  /** `actorGrid.get(i).get(j)` in a grid where that bucket exists; nothing otherwise. */
  function Cell(g: Buckets, i: int, j: int): seq<ActorId>
  {
    if i in g && j in g[i] then g[i][j] else []
  }

  /** A position whose bucket exists. */
  predicate Placeable(a: Actor)
  {
    InSpan(CellIndex(a.x)) && InSpan(CellIndex(a.y))
  }

  /** A position whose whole 3x3 neighbourhood of buckets exists. */
  predicate Sensable(a: Actor)
  {
    0 <= CellIndex(a.x) < Grid && 0 <= CellIndex(a.y) < Grid
  }

  /** The actors of `ids` whose cell is (i, j), in list order. */
  function Bucket(world: seq<Actor>, ids: seq<ActorId>, i: int, j: int): seq<ActorId>
    requires IdsBelow(ids, |world|)
  {
    if ids == [] then []
    else
      var last := ids[|ids| - 1];
      Bucket(world, ids[..|ids| - 1], i, j) +
      (if CellIndex(world[last].x) == i && CellIndex(world[last].y) == j then [last] else [])
  }

  /** Column i of a rebuilt grid. */
  function Column(world: seq<Actor>, ids: seq<ActorId>, i: int): map<int, seq<ActorId>>
    requires IdsBelow(ids, |world|)
  {
    map j | -1 <= j <= Grid :: Bucket(world, ids, i, j)
  }

  /** The grid that putActorsInGrid leaves: every bucket holds exactly its actors. */
  function BuildGrid(world: seq<Actor>, ids: seq<ActorId>): (g: Buckets)
    requires IdsBelow(ids, |world|)
    ensures GridShape(g)
  {
    map i | -1 <= i <= Grid :: Column(world, ids, i)
  }

  /** getActorsFromGrid: the nine buckets around (x, y), in the order the Java code reads them. */
  function Neighbours(g: Buckets, x: int, y: int): seq<ActorId>
  {
    Cell(g, x, y) + Cell(g, x-1, y) + Cell(g, x, y-1) + Cell(g, x-1, y-1) + Cell(g, x+1, y) +
    Cell(g, x, y+1) + Cell(g, x+1, y+1) + Cell(g, x-1, y+1) + Cell(g, x+1, y-1)
  }

  /** An actor is in bucket (i, j) exactly when it is in the list and its cell is (i, j). */
  lemma {:induction false} BucketMembership(world: seq<Actor>, ids: seq<ActorId>, i: int, j: int, id: ActorId)
    requires IdsBelow(ids, |world|)
    ensures id in Bucket(world, ids, i, j) <==>
            id in ids && id < |world| && CellIndex(world[id].x) == i && CellIndex(world[id].y) == j
  {
    if ids != [] {
      var init := ids[..|ids| - 1];
      BucketMembership(world, init, i, j, id);
      assert ids == init + [ids[|ids| - 1]];
    }
  }

  /** After a rebuild, every actor of the list sits in the bucket of its own cell and in no
      other, and no bucket holds anything else. */
  lemma RebuiltGridPlacement(world: seq<Actor>, ids: seq<ActorId>, i: int, j: int, id: ActorId)
    requires IdsBelow(ids, |world|)
    ensures id in Cell(BuildGrid(world, ids), i, j) <==>
            InSpan(i) && InSpan(j) &&
            id in ids && id < |world| && CellIndex(world[id].x) == i && CellIndex(world[id].y) == j
  {
    BucketMembership(world, ids, i, j, id);
  }

  /** A column with a bucket for every index of -1..50, each holding its actors, is the
      rebuilt column. */
  lemma ColumnExtensional(m: map<int, seq<ActorId>>, world: seq<Actor>, ids: seq<ActorId>, c: int)
    requires IdsBelow(ids, |world|) && forall r :: r in m <==> InSpan(r)
    requires forall r :: InSpan(r) ==> m[r] == Bucket(world, ids, c, r)
    ensures m == Column(world, ids, c)
  {
    var h := Column(world, ids, c);
    assert m.Keys == h.Keys;
  }

  lemma MapsEqual<K, V>(g: map<K, V>, h: map<K, V>)
    requires forall c :: c in g <==> c in h
    requires forall c :: c in g ==> g[c] == h[c]
    ensures g == h
  {
    assert g.Keys == h.Keys;
  }

  /** A grid of the right shape whose every bucket holds its actors is the rebuilt grid. */
  lemma GridExtensional(g: Buckets, world: seq<Actor>, ids: seq<ActorId>)
    requires IdsBelow(ids, |world|) && GridShape(g)
    requires forall c, r :: InSpan(c) && InSpan(r) ==> g[c][r] == Bucket(world, ids, c, r)
    ensures g == BuildGrid(world, ids)
  {
    var h := BuildGrid(world, ids);
    forall c | c in g ensures g[c] == h[c] {
      assert InSpan(c);
      ColumnExtensional(g[c], world, ids, c);
      assert h[c] == Column(world, ids, c);
    }
    assert forall c :: c in g <==> c in h;
    MapsEqual(g, h);
  }

  /** Every bucket before (i, j), column by column, is empty. */
  ghost predicate ClearedUpTo(g: Buckets, i: int, j: int)
    requires GridShape(g)
  {
    forall c, r :: InSpan(c) && InSpan(r) && (c < i || (c == i && r < j)) ==> g[c][r] == []
  }

  /** Emptying bucket (i, j) extends the emptied prefix by one bucket. */
  lemma ClearNext(g: Buckets, i: int, j: int)
    requires GridShape(g) && InSpan(i) && InSpan(j) && ClearedUpTo(g, i, j)
    ensures GridShape(g[i := g[i][j := []]]) && ClearedUpTo(g[i := g[i][j := []]], i, j + 1)
  {
  }

  /** Appending the next actor of the list to the bucket of its cell turns the grid of the
      first k actors into the grid of the first k + 1. */
  lemma PlaceNext(g: Buckets, world: seq<Actor>, ids: seq<ActorId>, k: nat)
    requires IdsBelow(ids, |world|) && k < |ids| && GridShape(g)
    requires forall c, r :: InSpan(c) && InSpan(r) ==> g[c][r] == Bucket(world, ids[..k], c, r)
    requires InSpan(CellIndex(world[ids[k]].x)) && InSpan(CellIndex(world[ids[k]].y))
    ensures var x, y := CellIndex(world[ids[k]].x), CellIndex(world[ids[k]].y);
      var h := g[x := g[x][y := g[x][y] + [ids[k]]]];
      && GridShape(h)
      && forall c, r :: InSpan(c) && InSpan(r) ==> h[c][r] == Bucket(world, ids[..k + 1], c, r)
  {
    assert ids[..k + 1][..k] == ids[..k];
  }

  /** Cell c lies within one step of x. */
  predicate Near(c: int, x: int)
  {
    -1 <= c - x <= 1
  }

  /** Whatever a bucket of the 3x3 block holds is returned by getActorsFromGrid. */
  lemma BlockCovered(g: Buckets, x: int, y: int, i: int, j: int, id: ActorId)
    requires Near(i, x) && Near(j, y) && id in Cell(g, i, j)
    ensures id in Neighbours(g, x, y)
  {
    if i == x - 1 {
      if j == y - 1 { assert id in Cell(g, x-1, y-1); }
      else if j == y { assert id in Cell(g, x-1, y); }
      else { assert id in Cell(g, x-1, y+1); }
    } else if i == x {
      if j == y - 1 { assert id in Cell(g, x, y-1); }
      else if j == y { assert id in Cell(g, x, y); }
      else { assert id in Cell(g, x, y+1); }
    } else {
      if j == y - 1 { assert id in Cell(g, x+1, y-1); }
      else if j == y { assert id in Cell(g, x+1, y); }
      else { assert id in Cell(g, x+1, y+1); }
    }
  }

  /** Whatever getActorsFromGrid returns lies in one bucket of the 3x3 block. */
  lemma NeighbourBucket(g: Buckets, x: int, y: int, id: ActorId)
    requires id in Neighbours(g, x, y)
    ensures exists i, j :: Near(i, x) && Near(j, y) && id in Cell(g, i, j)
  {
    assert Near(x - 1, x) && Near(x, x) && Near(x + 1, x);
    assert Near(y - 1, y) && Near(y, y) && Near(y + 1, y);
    if id in Cell(g, x, y) { }
    else if id in Cell(g, x-1, y) { }
    else if id in Cell(g, x, y-1) { }
    else if id in Cell(g, x-1, y-1) { }
    else if id in Cell(g, x+1, y) { }
    else if id in Cell(g, x, y+1) { }
    else if id in Cell(g, x+1, y+1) { }
    else if id in Cell(g, x-1, y+1) { }
  }

  /** Anything getActorsFromGrid returns from a rebuilt grid came from the 3x3 block. */
  lemma NeighbourSource(world: seq<Actor>, ids: seq<ActorId>, x: int, y: int, id: ActorId)
    requires IdsBelow(ids, |world|)
    requires id in Neighbours(BuildGrid(world, ids), x, y)
    ensures id in ids && id < |world| && Near(CellIndex(world[id].x), x) && Near(CellIndex(world[id].y), y)
  {
    var g := BuildGrid(world, ids);
    NeighbourBucket(g, x, y, id);
    var i, j :| Near(i, x) && Near(j, y) && id in Cell(g, i, j);
    RebuiltGridPlacement(world, ids, i, j, id);
  }

  /** getActorsFromGrid on a rebuilt grid returns exactly the listed actors whose cell lies in
      the 3x3 block centred on (x, y). */
  lemma NeighbourhoodMembership(world: seq<Actor>, ids: seq<ActorId>, x: int, y: int, id: ActorId)
    requires IdsBelow(ids, |world|) && 0 <= x < Grid && 0 <= y < Grid
    ensures id in Neighbours(BuildGrid(world, ids), x, y) <==>
            id in ids && id < |world| && Near(CellIndex(world[id].x), x) && Near(CellIndex(world[id].y), y)
  {
    var g := BuildGrid(world, ids);
    if id in ids && id < |world| {
      var cx, cy := CellIndex(world[id].x), CellIndex(world[id].y);
      if Near(cx, x) && Near(cy, y) {
        RebuiltGridPlacement(world, ids, cx, cy, id);
        BlockCovered(g, x, y, cx, cy, id);
      }
    }
    if id in Neighbours(g, x, y) {
      NeighbourSource(world, ids, x, y, id);
    }
  }
}
