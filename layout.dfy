/** Evolution.setupSimpleNN: the fixed 14(+bias) -> 30 -> 2 network of the cne algorithm,
    and the layout of its 510 weights in a genome.

    Encog's BasicNetwork is modelled only as far as setupSimpleNN uses it: a weight per
    connection, addressed by (source layer, source neuron, target neuron), all zero once the
    structure is finalized, each overwritten by setWeight. */
module NetworkLayout {

  /** The length of a cne genome (the DoubleArrayGenome size). */
  const GenomeLength: int := 510

  /** A connection: `from` in layer `layer` to `to` in layer `layer + 1`. */
  datatype Slot = Slot(layer: int, from: int, to: int)

  /** The connections of the network: 15 sources (14 inputs and the bias) to 30 hidden
      neurons, then 30 hidden neurons to 2 outputs. */
  predicate ValidSlot(s: Slot)
  {
    || (s.layer == 0 && 0 <= s.from < 15 && 0 <= s.to < 30)
    || (s.layer == 1 && 0 <= s.from < 30 && 0 <= s.to < 2)
  }

  /** Every connection of the network, as a finite set. */
  function Slots(): (r: set<Slot>)
    ensures forall s :: s in r <==> ValidSlot(s)
  {
    set l: int, i: int, j: int | 0 <= l < 2 && 0 <= i < 30 && 0 <= j < 30 && ValidSlot(Slot(l, i, j))
      :: Slot(l, i, j)
  }

  /** The genome index setupSimpleNN's `weightCounter` has reached when it sets a connection:
      the first layer row by row, then the second layer row by row. */
  function WeightIndex(s: Slot): int
  {
    if s.layer == 0 then 30 * s.from + s.to else 450 + 2 * s.from + s.to
  }

  /** The connection a genome index feeds; the inverse of WeightIndex on 0..509. */
  function SlotAt(k: int): (s: Slot)
    requires 0 <= k < GenomeLength
    ensures ValidSlot(s) && WeightIndex(s) == k
  {
    if k < 450 then Slot(0, k / 30, k % 30) else Slot(1, (k - 450) / 2, (k - 450) % 2)
  }

  /** Distinct connections read distinct genome indices, all within the genome: the layer-0
      weights take 0..449 and the layer-1 weights 450..509. */
  lemma WeightIndexInjective(s: Slot, t: Slot)
    requires ValidSlot(s) && ValidSlot(t)
    ensures 0 <= WeightIndex(s) < GenomeLength
    ensures s.layer == 0 <==> WeightIndex(s) < 450
    ensures WeightIndex(s) == WeightIndex(t) ==> s == t
  {
  }

  /** Every connection is the one its own index feeds, so the layout is a bijection between
      the 510 connections and 0..509. */
  lemma LayoutBijection(s: Slot)
    requires ValidSlot(s)
    ensures SlotAt(WeightIndex(s)) == s
  {
    WeightIndexInjective(s, SlotAt(WeightIndex(s)));
  }

  /** The weights after setupSimpleNN has consumed the first `count` genome values: the
      connections fed by those indices carry their values, the rest are still zero. */
  ghost function Partial(genome: seq<real>, count: int): map<Slot, real>
    requires |genome| >= GenomeLength
  {
    map s | s in Slots() :: if WeightIndex(s) < count then genome[WeightIndex(s)] else 0.0
  }

  /** The network setupSimpleNN builds from a genome: each connection carries the value at
      its index. */
  ghost function Layout(genome: seq<real>): (m: map<Slot, real>)
    requires |genome| >= GenomeLength
    ensures m.Keys == Slots()
  {
    map s | s in Slots() :: genome[WeightIndex(s)]
  }

  /** The weight of every connection comes from its own genome index, and every one of the
      510 genome values lands on exactly one connection. */
  lemma LayoutMeaning(genome: seq<real>, k: int)
    requires |genome| >= GenomeLength && 0 <= k < GenomeLength
    ensures Layout(genome)[SlotAt(k)] == genome[k]
    ensures forall s :: s in Layout(genome) && Layout(genome)[s] == genome[k] && WeightIndex(s) == k ==> s == SlotAt(k)
  {
    forall s | s in Layout(genome) && WeightIndex(s) == k ensures s == SlotAt(k) {
      WeightIndexInjective(s, SlotAt(k));
    }
  }

  /** Setting the connection fed by index `c` extends the partial network by one value. */
  lemma PartialNext(genome: seq<real>, s0: Slot, c: int)
    requires |genome| >= GenomeLength && ValidSlot(s0) && c == WeightIndex(s0)
    ensures 0 <= c < GenomeLength
    ensures Partial(genome, c + 1) == Partial(genome, c)[s0 := genome[c]]
  {
    WeightIndexInjective(s0, s0);
    var before, after := Partial(genome, c), Partial(genome, c + 1);
    forall s | s in Slots() ensures after[s] == before[s0 := genome[c]][s] {
      WeightIndexInjective(s, s0);
    }
    assert after.Keys == before[s0 := genome[c]].Keys;
  }

  /** Encog's BasicNetwork with the layers setupSimpleNN adds. */
  class SimpleNetwork {
    var weights: map<Slot, real>

    /** addLayer three times and finalizeStructure: every connection present, weight zero. */
    constructor ()
      ensures weights.Keys == Slots() && forall s :: s in weights ==> weights[s] == 0.0
    {
      weights := map s | s in Slots() :: 0.0;
    }

    /** setWeight(layer, from, to, w) on an existing connection. */
    method SetWeight(layer: int, from: int, to: int, w: real)
      requires ValidSlot(Slot(layer, from, to))
      modifies this
      ensures weights == old(weights)[Slot(layer, from, to) := w]
    {
      weights := weights[Slot(layer, from, to) := w];
    }
  }

  /** setupSimpleNN: a fresh network whose weights are read from the genome in order, one
      per connection, `weightCounter` advancing through 0..509. */
  method SetupSimpleNN(genome: seq<real>) returns (net: SimpleNetwork)
    requires |genome| >= GenomeLength
    ensures fresh(net) && net.weights == Layout(genome)
  {
    net := new SimpleNetwork();
    assert net.weights == Partial(genome, 0);
    var weightCounter := 0;
    for i := 0 to 15
      invariant weightCounter == 30 * i
      invariant net.weights == Partial(genome, weightCounter)
    {
      weightCounter := SetRow(net, genome, 0, i, weightCounter);
    }
    for i := 0 to 30
      invariant weightCounter == 450 + 2 * i
      invariant net.weights == Partial(genome, weightCounter)
    {
      weightCounter := SetRow(net, genome, 1, i, weightCounter);
    }
    assert net.weights == Layout(genome);
  }

  /** The inner loop of setupSimpleNN: the connections out of neuron `i` of `layer`, read
      from the genome at `weightCounter` onwards. */
  method SetRow(net: SimpleNetwork, genome: seq<real>, layer: int, i: int, weightCounter: int)
    returns (counterAfter: int)
    requires |genome| >= GenomeLength && ValidSlot(Slot(layer, i, 0))
    requires weightCounter == WeightIndex(Slot(layer, i, 0))
    requires net.weights == Partial(genome, weightCounter)
    modifies net
    ensures counterAfter == weightCounter + (if layer == 0 then 30 else 2)
    ensures net.weights == Partial(genome, counterAfter)
  {
    var width := if layer == 0 then 30 else 2;
    counterAfter := weightCounter;
    for j := 0 to width
      invariant counterAfter == weightCounter + j
      invariant net.weights == Partial(genome, counterAfter)
    {
      PartialNext(genome, Slot(layer, i, j), counterAfter);
      net.SetWeight(layer, i, j, genome[counterAfter]);
      counterAfter := counterAfter + 1;
    }
  }
}
