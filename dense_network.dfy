/** `NeuralNetwork` of `Core/Neural`: a dense feed-forward network whose weights and biases
    are drawn from the network's own generator, with copy, clamped mutation, mean-crossover
    breeding and a forward pass with ReLU on the hidden layers.

    The weight and bias arrays are modelled as nested sequences held in fields (they are
    never shared with another object); every element the source writes becomes an update of
    the sequence. The activation buffers stay arrays: `GetInputArray` hands out the first
    one for callers to fill and `FeedForward` returns the last one. The `Id` string is the
    text of a fresh Guid and is modelled as that Guid. The activation-function array passed
    to the constructor is never used and is not modelled. */
module DenseNetwork {
  import opened Errors
  import opened Ids
  import opened Layers
  import Rng

  /** The mutated weight: perturbed, then clamped to [-1, 1]. */
  function MutatedWeight(weight: real, sample: real, factor: real): (r: real)
    requires 0.0 <= sample < 1.0
    ensures -1.0 <= r <= 1.0
    ensures factor >= 0.0 && -1.0 + factor / 2.0 <= weight <= 1.0 - factor / 2.0 ==> r == Perturb(weight, sample, factor)
  {
    Clamp(Perturb(weight, sample, factor), -1.0, 1.0)
  }

  /** Layer `w`, `b` (rows of `cols` weights) as `InitializeParameters` draws it when its
      draws start at `start`: per row the bias, then the weights. */
  ghost predicate InitializedLayer(stream: nat -> real, start: nat, cols: nat, w: seq<seq<real>>, b: seq<real>)
  {
    && Rng.IsSampleStream(stream)
    && |w| == |b|
    && (forall j | 0 <= j < |w| :: |w[j]| == cols)
    && (forall j | 0 <= j < |w| :: b[j] == Rng.Signed(stream(start + RowsDraws(j, cols + 1))))
    && (forall j, k | 0 <= j < |w| && 0 <= k < cols :: w[j][k] == Rng.Signed(stream(start + RowsDraws(j, cols + 1) + 1 + k)))
  }

  /** Layer `w`, `b` is layer `w0`, `b0` after `Mutate` with draws starting at `start`. */
  ghost predicate MutatedLayer(stream: nat -> real, start: nat, cols: nat, factor: real,
                               w0: seq<seq<real>>, b0: seq<real>, w: seq<seq<real>>, b: seq<real>)
  {
    && Rng.IsSampleStream(stream)
    && |w| == |b| == |w0| == |b0|
    && (forall j | 0 <= j < |w| :: |w[j]| == cols && |w0[j]| == cols)
    && (forall j | 0 <= j < |w| :: b[j] == Perturb(b0[j], stream(start + RowsDraws(j, cols + 1)), factor))
    && (forall j, k | 0 <= j < |w| && 0 <= k < cols ::
          w[j][k] == MutatedWeight(w0[j][k], stream(start + RowsDraws(j, cols + 1) + 1 + k), factor))
  }

  /** Layer `w`, `b` is the element-wise mean of two parents' layers. */
  ghost predicate MeanLayer(xw: seq<seq<real>>, xb: seq<real>, yw: seq<seq<real>>, yb: seq<real>, w: seq<seq<real>>, b: seq<real>)
  {
    && |w| == |b| == |xw| == |xb| == |yw| == |yb|
    && (forall j | 0 <= j < |w| :: |w[j]| == |xw[j]| == |yw[j]| && b[j] == Mean(xb[j], yb[j]))
    && (forall j, k | 0 <= j < |w| && 0 <= k < |w[j]| :: w[j][k] == Mean(xw[j][k], yw[j][k]))
  }

  /** Every weight layer `l` of `w`, `b` is layer `l` of `w0`, `b0` after `Mutate`, the
      layers drawing one after another from `start` on. */
  ghost predicate MutatedLayers(stream: nat -> real, start: nat, sizes: seq<nat>, factor: real,
                                w0: Weights, b0: Biases, w: Weights, b: Biases)
  {
    && |w| == |b| == |w0| == |b0| && |w| < |sizes|
    && forall l {:trigger w[l]} | 0 <= l < |w| ::
         MutatedLayer(stream, start + LayerStart(sizes, l, 1), sizes[l], factor, w0[l], b0[l], w[l], b[l])
  }

  /** Every weight layer of `w`, `b` is the element-wise mean of the two parents' layers. */
  ghost predicate MeanLayers(xw: Weights, xb: Biases, yw: Weights, yb: Biases, w: Weights, b: Biases)
  {
    && |w| == |b| == |xw| == |xb| == |yw| == |yb|
    && forall l {:trigger w[l]} | 0 <= l < |w| :: MeanLayer(xw[l], xb[l], yw[l], yb[l], w[l], b[l])
  }

  // ----- InitializeParameters -----

  /** The source's inner loop for one neuron: its bias draw, then one draw per weight. */
  method InitializeRow(random: Rng.Random, cols: nat) returns (bias: real, row: seq<real>)
    requires random.Valid()
    modifies random
    ensures random.position == old(random.position) + cols + 1
    ensures bias == Rng.Signed(random.stream(old(random.position)))
    ensures |row| == cols
    ensures forall k | 0 <= k < cols :: row[k] == Rng.Signed(random.stream(old(random.position) + 1 + k))
  {
    var sample := random.NextDouble();
    bias := Rng.Signed(sample);
    row := [];
    var k := 0;
    while k < cols
      invariant 0 <= k <= cols && |row| == k
      invariant random.position == old(random.position) + 1 + k
      invariant forall k' | 0 <= k' < k :: row[k'] == Rng.Signed(random.stream(old(random.position) + 1 + k'))
    {
      sample := random.NextDouble();
      row := row + [Rng.Signed(sample)];
      k := k + 1;
    }
  }

  /** The loop over the neurons of one layer. */
  method InitializeLayer(random: Rng.Random, rows: nat, cols: nat) returns (w: seq<seq<real>>, b: seq<real>)
    requires random.Valid()
    modifies random
    ensures random.position == old(random.position) + RowsDraws(rows, cols + 1)
    ensures |w| == rows && InitializedLayer(random.stream, old(random.position), cols, w, b)
  {
    w, b := [], [];
    var j := 0;
    while j < rows
      invariant 0 <= j <= rows && |w| == j && |b| == j
      invariant random.position == old(random.position) + RowsDraws(j, cols + 1)
      invariant forall j' | 0 <= j' < j :: |w[j']| == cols
      invariant forall j' | 0 <= j' < j ::
                  b[j'] == Rng.Signed(random.stream(old(random.position) + RowsDraws(j', cols + 1)))
      invariant forall j', k | 0 <= j' < j && 0 <= k < cols ::
                  w[j'][k] == Rng.Signed(random.stream(old(random.position) + RowsDraws(j', cols + 1) + 1 + k))
    {
      var bias, row := InitializeRow(random, cols);
      w, b := w + [row], b + [bias];
      j := j + 1;
    }
  }

  /** The first `|w|` weight layers are drawn as `InitializeParameters` draws them, starting
      at draw `p0`. */
  ghost predicate InitializedPrefix(stream: nat -> real, p0: nat, sizes: seq<nat>, w: Weights, b: Biases)
  {
    && |w| == |b| < |sizes|
    && forall l {:trigger w[l]} | 0 <= l < |w| ::
         |w[l]| == sizes[l + 1] && InitializedLayer(stream, p0 + LayerStart(sizes, l, 1), sizes[l], w[l], b[l])
  }

  /** All weight layers drawn have the shape `InitializeParameters` allocates. */
  lemma PrefixShaped(stream: nat -> real, p0: nat, sizes: seq<nat>, w: Weights, b: Biases)
    requires InitializedPrefix(stream, p0, sizes, w, b) && |w| == |sizes| - 1
    ensures Shaped(sizes, w, b)
  {
    forall l | 0 <= l < |w|
      ensures |w[l]| == sizes[l + 1] && |b[l]| == sizes[l + 1]
      ensures forall j | 0 <= j < |w[l]| :: |w[l][j]| == sizes[l]
    {
      assert InitializedLayer(stream, p0 + LayerStart(sizes, l, 1), sizes[l], w[l], b[l]);
    }
  }

  /** One pass of the layer loop with `i > 0`: the weights and biases of layer `i`. */
  method InitializeNextLayer(sizes: seq<nat>, random: Rng.Random, ghost p0: nat, w: Weights, b: Biases)
    returns (w': Weights, b': Biases)
    requires random.Valid() && |w| + 1 < |sizes|
    requires InitializedPrefix(random.stream, p0, sizes, w, b)
    requires random.position == p0 + LayerStart(sizes, |w|, 1)
    modifies random
    ensures |w'| == |w| + 1 && |b'| == |b| + 1 && w'[..|w|] == w && b'[..|w|] == b
    ensures InitializedPrefix(random.stream, p0, sizes, w', b')
    ensures random.position == p0 + LayerStart(sizes, |w'|, 1)
  {
    var lw, lb := InitializeLayer(random, sizes[|w| + 1], sizes[|w|]);
    w', b' := w + [lw], b + [lb];
    assert w'[..|w|] == w && b'[..|w|] == b;
  }

  /** `InitializeParameters()`: a zeroed activation buffer per layer, and for every layer after
      the first its biases and weights, drawn neuron by neuron. */
  method InitializeParameters(sizes: seq<nat>, random: Rng.Random)
    returns (activations: seq<array<real>>, w: Weights, b: Biases)
    requires |sizes| >= 1 && random.Valid()
    modifies random
    ensures Shaped(sizes, w, b)
    ensures random.position == old(random.position) + TotalDraws(sizes, 1)
    ensures forall l {:trigger w[l]} | 0 <= l < |w| ::
              InitializedLayer(random.stream, old(random.position) + LayerStart(sizes, l, 1), sizes[l], w[l], b[l])
    ensures |activations| == |sizes|
    ensures forall i | 0 <= i < |sizes| :: fresh(activations[i]) && activations[i].Length == sizes[i]
    ensures forall i, i' | 0 <= i < i' < |sizes| :: activations[i] != activations[i']
  {
    ghost var p0 := random.position;
    activations, w, b := [], [], [];
    var i := 0;
    while i < |sizes|
      invariant 0 <= i <= |sizes| && |activations| == i
      invariant forall i' | 0 <= i' < i :: fresh(activations[i']) && activations[i'].Length == sizes[i']
      invariant forall x, y | 0 <= x < y < i :: activations[x] != activations[y]
      invariant |w| == (if i == 0 then 0 else i - 1)
      invariant InitializedPrefix(random.stream, p0, sizes, w, b)
      invariant random.position == p0 + LayerStart(sizes, |w|, 1)
    {
      var buffer := new real[sizes[i]](_ => 0.0);
      activations := activations + [buffer];
      if i > 0 {
        w, b := InitializeNextLayer(sizes, random, p0, w, b);
      }
      i := i + 1;
    }
    PrefixShaped(random.stream, p0, sizes, w, b);
  }

  // ----- Copy, Mutate and Breed, one neuron at a time -----

  /** The loop of `Copy` over one neuron's weights. */
  method CopyRow(row: seq<real>, parent: seq<real>) returns (r: seq<real>)
    requires |row| == |parent|
    ensures r == parent
  {
    r := row;
    var k := 0;
    while k < |row|
      invariant 0 <= k <= |row| && |r| == |row|
      invariant r[..k] == parent[..k]
    {
      r := r[k := parent[k]];
      k := k + 1;
    }
    assert r == r[..k];
  }

  /** The loop of `Copy` over one layer's neurons. */
  method CopyLayer(w: seq<seq<real>>, b: seq<real>, pw: seq<seq<real>>, pb: seq<real>)
    returns (w': seq<seq<real>>, b': seq<real>)
    requires |w| == |b| == |pw| == |pb|
    requires forall j | 0 <= j < |w| :: |w[j]| == |pw[j]|
    ensures w' == pw && b' == pb
  {
    w', b' := w, b;
    var j := 0;
    while j < |w|
      invariant 0 <= j <= |w| && |w'| == |w| && |b'| == |w|
      invariant w'[..j] == pw[..j] && b'[..j] == pb[..j]
      invariant forall j' | j <= j' < |w| :: w'[j'] == w[j']
    {
      b' := b'[j := pb[j]];
      var row := CopyRow(w'[j], pw[j]);
      w' := w'[j := row];
      j := j + 1;
    }
    assert w' == w'[..j] && b' == b'[..j];
  }

  /** The loop of `Mutate` over one neuron: the bias draw, then one draw per weight. */
  method MutateRow(random: Rng.Random, bias: real, row: seq<real>, factor: real) returns (bias': real, r: seq<real>)
    requires random.Valid()
    modifies random
    ensures random.position == old(random.position) + |row| + 1
    ensures bias' == Perturb(bias, random.stream(old(random.position)), factor)
    ensures |r| == |row|
    ensures forall k | 0 <= k < |row| :: r[k] == MutatedWeight(row[k], random.stream(old(random.position) + 1 + k), factor)
  {
    var sample := random.NextDouble();
    bias' := Perturb(bias, sample, factor);
    r := row;
    var k := 0;
    while k < |row|
      invariant 0 <= k <= |row| && |r| == |row|
      invariant random.position == old(random.position) + 1 + k
      invariant forall k' | 0 <= k' < k :: r[k'] == MutatedWeight(row[k'], random.stream(old(random.position) + 1 + k'), factor)
      invariant forall k' | k <= k' < |row| :: r[k'] == row[k']
    {
      sample := random.NextDouble();
      r := r[k := MutatedWeight(row[k], sample, factor)];
      k := k + 1;
    }
  }

  /** The loop of `Mutate` over one layer's neurons. */
  method MutateLayer(random: Rng.Random, w: seq<seq<real>>, b: seq<real>, cols: nat, factor: real)
    returns (w': seq<seq<real>>, b': seq<real>)
    requires random.Valid() && |w| == |b|
    requires forall j | 0 <= j < |w| :: |w[j]| == cols
    modifies random
    ensures random.position == old(random.position) + RowsDraws(|w|, cols + 1)
    ensures MutatedLayer(random.stream, old(random.position), cols, factor, w, b, w', b')
  {
    w', b' := w, b;
    var j := 0;
    while j < |w|
      invariant 0 <= j <= |w| && |w'| == |w| && |b'| == |w|
      invariant random.position == old(random.position) + RowsDraws(j, cols + 1)
      invariant forall j' | 0 <= j' < |w| :: |w'[j']| == cols
      invariant forall j' | j <= j' < |w| :: w'[j'] == w[j'] && b'[j'] == b[j']
      invariant forall j' | 0 <= j' < j ::
                  b'[j'] == Perturb(b[j'], random.stream(old(random.position) + RowsDraws(j', cols + 1)), factor)
      invariant forall j', k | 0 <= j' < j && 0 <= k < cols ::
                  w'[j'][k] == MutatedWeight(w[j'][k], random.stream(old(random.position) + RowsDraws(j', cols + 1) + 1 + k), factor)
    {
      var bias, row := MutateRow(random, b'[j], w'[j], factor);
      w', b' := w'[j := row], b'[j := bias];
      j := j + 1;
    }
  }

  /** The loop of `Mutate` over the layers: every weight layer in turn, each drawing from
      where the previous one stopped. */
  method MutateParameters(sizes: seq<nat>, random: Rng.Random, w0: Weights, b0: Biases, factor: real)
    returns (w: Weights, b: Biases)
    requires random.Valid() && Shaped(sizes, w0, b0)
    modifies random
    ensures Shaped(sizes, w, b)
    ensures random.position == old(random.position) + TotalDraws(sizes, 1)
    ensures MutatedLayers(random.stream, old(random.position), sizes, factor, w0, b0, w, b)
  {
    ghost var p0 := random.position;
    w, b := w0, b0;
    var i := 0;
    while i < |sizes|
      invariant 0 <= i <= |sizes| && Shaped(sizes, w, b)
      invariant random.position == p0 + LayerStart(sizes, if i == 0 then 0 else i - 1, 1)
      invariant forall l {:trigger w[l]} | 0 <= l < |w| && i - 1 <= l :: w[l] == w0[l] && b[l] == b0[l]
      invariant forall l {:trigger w[l]} | 0 <= l < i - 1 ::
                  MutatedLayer(random.stream, p0 + LayerStart(sizes, l, 1), sizes[l], factor, w0[l], b0[l], w[l], b[l])
    {
      if i > 0 {
        var lw, lb := MutateLayer(random, w[i - 1], b[i - 1], sizes[i - 1], factor);
        w, b := w[i - 1 := lw], b[i - 1 := lb];
      }
      i := i + 1;
    }
  }

  /** The loop of `Breed` over one neuron's weights. */
  method BreedRow(row: seq<real>, x: seq<real>, y: seq<real>) returns (r: seq<real>)
    requires |row| == |x| == |y|
    ensures |r| == |row|
    ensures forall k | 0 <= k < |row| :: r[k] == Mean(x[k], y[k])
  {
    r := row;
    var k := 0;
    while k < |row|
      invariant 0 <= k <= |row| && |r| == |row|
      invariant forall k' | 0 <= k' < k :: r[k'] == Mean(x[k'], y[k'])
    {
      r := r[k := Mean(x[k], y[k])];
      k := k + 1;
    }
  }

  /** The loop of `Breed` over one layer's neurons. */
  method BreedLayer(w: seq<seq<real>>, b: seq<real>, xw: seq<seq<real>>, xb: seq<real>, yw: seq<seq<real>>, yb: seq<real>)
    returns (w': seq<seq<real>>, b': seq<real>)
    requires |w| == |b| == |xw| == |xb| == |yw| == |yb|
    requires forall j | 0 <= j < |w| :: |w[j]| == |xw[j]| == |yw[j]|
    ensures MeanLayer(xw, xb, yw, yb, w', b')
    ensures forall j | 0 <= j < |w| :: |w'[j]| == |w[j]|
  {
    w', b' := w, b;
    var j := 0;
    while j < |w|
      invariant 0 <= j <= |w| && |w'| == |w| && |b'| == |w|
      invariant forall j' | 0 <= j' < |w| :: |w'[j']| == |w[j']|
      invariant forall j' | j <= j' < |w| :: w'[j'] == w[j']
      invariant forall j' | 0 <= j' < j :: b'[j'] == Mean(xb[j'], yb[j'])
      invariant forall j', k | 0 <= j' < j && 0 <= k < |w[j']| :: w'[j'][k] == Mean(xw[j'][k], yw[j'][k])
    {
      b' := b'[j := Mean(xb[j], yb[j])];
      var row := BreedRow(w'[j], xw[j], yw[j]);
      w' := w'[j := row];
      j := j + 1;
    }
  }

  /** The loop of `Breed` over the layers. */
  method BreedParameters(sizes: seq<nat>, w0: Weights, b0: Biases, xw: Weights, xb: Biases, yw: Weights, yb: Biases)
    returns (w: Weights, b: Biases)
    requires Shaped(sizes, w0, b0) && Shaped(sizes, xw, xb) && Shaped(sizes, yw, yb)
    ensures Shaped(sizes, w, b)
    ensures MeanLayers(xw, xb, yw, yb, w, b)
  {
    w, b := w0, b0;
    var i := 0;
    while i < |sizes|
      invariant 0 <= i <= |sizes| && Shaped(sizes, w, b)
      invariant forall l {:trigger w[l]} | 0 <= l < i - 1 :: MeanLayer(xw[l], xb[l], yw[l], yb[l], w[l], b[l])
    {
      if i > 0 {
        var lw, lb := BreedLayer(w[i - 1], b[i - 1], xw[i - 1], xb[i - 1], yw[i - 1], yb[i - 1]);
        w, b := w[i - 1 := lw], b[i - 1 := lb];
      }
      i := i + 1;
    }
  }

  // ----- What the drawn and updated parameters satisfy -----

  /** Every freshly drawn bias and weight lies in [-1, 1). */
  lemma InitializedValuesAreSigned(stream: nat -> real, start: nat, cols: nat, w: seq<seq<real>>, b: seq<real>)
    requires InitializedLayer(stream, start, cols, w, b)
    ensures forall j | 0 <= j < |b| :: -1.0 <= b[j] < 1.0
    ensures forall j, k | 0 <= j < |w| && 0 <= k < |w[j]| :: -1.0 <= w[j][k] < 1.0
  {
  }

  /** After `Mutate` every weight lies in [-1, 1], and every bias within half the factor of
      its old value. */
  lemma MutatedValuesAreBounded(stream: nat -> real, start: nat, cols: nat, factor: real,
                                w0: seq<seq<real>>, b0: seq<real>, w: seq<seq<real>>, b: seq<real>)
    requires MutatedLayer(stream, start, cols, factor, w0, b0, w, b) && factor >= 0.0
    ensures forall j, k | 0 <= j < |w| && 0 <= k < |w[j]| :: -1.0 <= w[j][k] <= 1.0
    ensures forall j | 0 <= j < |b| :: b0[j] - factor / 2.0 <= b[j] <= b0[j] + factor / 2.0
  {
  }

  /** A mutation with factor 0 of weights already in [-1, 1] changes nothing. */
  lemma ZeroMutationKeepsLayer(stream: nat -> real, start: nat, cols: nat,
                               w0: seq<seq<real>>, b0: seq<real>, w: seq<seq<real>>, b: seq<real>)
    requires MutatedLayer(stream, start, cols, 0.0, w0, b0, w, b)
    requires forall j, k | 0 <= j < |w0| && 0 <= k < |w0[j]| :: -1.0 <= w0[j][k] <= 1.0
    ensures w == w0 && b == b0
  {
    forall j | 0 <= j < |w|
      ensures w[j] == w0[j]
    {
      assert forall k | 0 <= k < cols :: w[j][k] == w0[j][k];
    }
  }

  /** The crossover is symmetric in the two parents. */
  lemma MeanLayerIsSymmetric(xw: seq<seq<real>>, xb: seq<real>, yw: seq<seq<real>>, yb: seq<real>, w: seq<seq<real>>, b: seq<real>)
    requires MeanLayer(xw, xb, yw, yb, w, b)
    ensures MeanLayer(yw, yb, xw, xb, w, b)
  {
  }

  /** Breeding a layer with itself copies it. */
  lemma SelfMeanLayerIsCopy(xw: seq<seq<real>>, xb: seq<real>, w: seq<seq<real>>, b: seq<real>)
    requires MeanLayer(xw, xb, xw, xb, w, b)
    ensures w == xw && b == xb
  {
    forall j | 0 <= j < |w|
      ensures w[j] == xw[j]
    {
      assert forall k | 0 <= k < |w[j]| :: w[j][k] == xw[j][k];
    }
  }

  class NeuralNetwork {
    var id: Guid
    const sizes: seq<nat>
    var weights: Weights
    var biases: Biases
    /** `_activations`: one buffer per layer, allocated once. */
    const activations: seq<array<real>>
    /** `_random`, seeded at construction. */
    const random: Rng.Random

    ghost predicate Valid()
      reads this
    {
      && Shaped(sizes, weights, biases)
      && |activations| == |sizes|
      && (forall i | 0 <= i < |sizes| :: activations[i].Length == sizes[i])
      && (forall i, i' | 0 <= i < i' < |sizes| :: activations[i] != activations[i'])
      && random.Valid()
    }

    /** The buffers `FeedForward` writes: every layer's but the input layer's. */
    ghost function LayerBuffers(): set<array<real>>
    {
      set i | 1 <= i < |activations| :: activations[i]
    }

    /** `NeuralNetwork(layerSizes, activationFunctions, randomSeed)`: a fresh Id, a generator
        over the seed's stream, and `InitializeParameters()`. */
    constructor (layerSizes: seq<nat>, stream: nat -> real, guids: GuidSource)
      requires |layerSizes| >= 1 && Rng.IsSampleStream(stream)
      modifies guids
      ensures Valid() && sizes == layerSizes
      ensures guids.issued == old(guids.issued) + 1 && id == Guid(guids.issued)
      ensures fresh(random) && random.stream == stream && random.position == TotalDraws(sizes, 1)
      ensures forall l {:trigger weights[l]} | 0 <= l < |weights| ::
                InitializedLayer(stream, LayerStart(sizes, l, 1), sizes[l], weights[l], biases[l])
      ensures forall i | 0 <= i < |sizes| :: fresh(activations[i])
    {
      var g := guids.NewGuid();
      id := g;
      sizes := layerSizes;
      var r := new Rng.Random(stream);
      random := r;
      var acts, w, b := InitializeParameters(layerSizes, r);
      activations, weights, biases := acts, w, b;
    }

    /** `Copy(parentNeural)`: the parent's Id, and every bias and weight set to the parent's. */
    method Copy(parent: NeuralNetwork)
      requires Valid() && parent.Valid() && parent.sizes == sizes
      modifies this
      ensures Valid()
      ensures id == old(parent.id) && weights == old(parent.weights) && biases == old(parent.biases)
    {
      id := parent.id;
      var pw, pb := parent.weights, parent.biases;
      var i := 0;
      while i < |sizes|
        invariant 0 <= i <= |sizes| && Valid()
        invariant id == old(parent.id) && pw == old(parent.weights) && pb == old(parent.biases)
        invariant forall l | 0 <= l < i - 1 :: weights[l] == pw[l] && biases[l] == pb[l]
      {
        if i > 0 {
          var lw, lb := CopyLayer(weights[i - 1], biases[i - 1], pw[i - 1], pb[i - 1]);
          weights, biases := weights[i - 1 := lw], biases[i - 1 := lb];
        }
        i := i + 1;
      }
      assert weights == pw && biases == pb;
    }

    /** `Mutate(mutationFactor)`: a fresh Id; every bias moves by `(r - 0.5) * factor` for its
        own draw `r`, and every weight likewise and is then clamped to [-1, 1]. */
    method Mutate(factor: real, guids: GuidSource)
      requires Valid()
      modifies this, random, guids
      ensures Valid()
      ensures guids.issued == old(guids.issued) + 1 && id == Guid(guids.issued)
      ensures random.position == old(random.position) + TotalDraws(sizes, 1)
      ensures MutatedLayers(random.stream, old(random.position), sizes, factor, old(weights), old(biases), weights, biases)
    {
      id := guids.NewGuid();
      weights, biases := MutateParameters(sizes, random, weights, biases, factor);
    }

    /** `Breed(parentX, parentY)`: a fresh Id, and every bias and weight set to the mean of
        the parents' values at that position. The parents' shapes are not checked by the
        source; the model asks for the shape of this network. */
    method Breed(x: NeuralNetwork, y: NeuralNetwork, guids: GuidSource)
      requires Valid() && x.Valid() && y.Valid() && x.sizes == sizes && y.sizes == sizes
      modifies this, guids
      ensures Valid()
      ensures guids.issued == old(guids.issued) + 1 && id == Guid(guids.issued)
      ensures MeanLayers(old(x.weights), old(x.biases), old(y.weights), old(y.biases), weights, biases)
    {
      id := guids.NewGuid();
      weights, biases := BreedParameters(sizes, weights, biases, x.weights, x.biases, y.weights, y.biases);
    }

    /** `ApplyActivationFunction(x, layer)`: the identity on the output layer, ReLU before it. */
    function ApplyActivationFunction(x: real, layer: nat): (r: real)
      ensures layer == |sizes| - 1 ==> r == x
      ensures layer != |sizes| - 1 ==> r >= 0.0 && r == ReLU(x)
    {
      if layer == |sizes| - 1 then x else ReLU(x)
    }

    /** `GetInputArray()`: the input layer's own buffer, which `FeedForward` reads. */
    method GetInputArray() returns (input: array<real>)
      requires Valid()
      ensures input == activations[0] && input.Length == sizes[0]
      ensures input !in LayerBuffers()
    {
      input := activations[0];
    }

    /** One layer of `FeedForward()`: every neuron's weighted sum of the previous layer plus
        its bias, through the layer's activation function. */
    method ComputeLayer(layer: nat)
      requires Valid() && 1 <= layer < |sizes|
      modifies activations[layer]
      ensures activations[layer][..]
              == LayerOutput(weights[layer - 1], biases[layer - 1], activations[layer - 1][..], Rectified(sizes, layer, true))
    {
      var current, previous := activations[layer], activations[layer - 1];
      ghost var a := previous[..];
      var w, b := weights[layer - 1], biases[layer - 1];
      var neuron := 0;
      while neuron < sizes[layer]
        invariant 0 <= neuron <= sizes[layer]
        invariant previous[..] == a
        invariant forall n | 0 <= n < neuron :: current[n] == Neuron(w[n], b[n], a, Rectified(sizes, layer, true))
      {
        var weightedSum := 0.0;
        var k := 0;
        while k < sizes[layer - 1]
          invariant 0 <= k <= sizes[layer - 1]
          invariant weightedSum == Dot(w[neuron], a, k)
        {
          weightedSum := weightedSum + w[neuron][k] * previous[k];
          k := k + 1;
        }
        weightedSum := weightedSum + b[neuron];
        current[neuron] := ApplyActivationFunction(weightedSum, layer);
        neuron := neuron + 1;
      }
    }

    /** `FeedForward()`: every layer after the input is computed in order from the one before;
        the result is the output layer's own buffer. */
    method FeedForward() returns (output: array<real>)
      requires Valid()
      modifies LayerBuffers()
      ensures output == activations[|sizes| - 1]
      ensures forall l | 1 <= l < |sizes| ::
                activations[l][..] == Outputs(sizes, weights, biases, old(activations[0][..]), true)[l]
    {
      ghost var input := activations[0][..];
      var layer := 1;
      while layer < |sizes|
        invariant 1 <= layer <= |sizes|
        invariant activations[0][..] == input
        invariant forall l | 1 <= l < layer :: activations[l][..] == Outputs(sizes, weights, biases, input, true)[l]
      {
        ComputeLayer(layer);
        ForwardStep(sizes, weights, biases, input, true, |sizes|, layer);
        layer := layer + 1;
      }
      output := activations[|sizes| - 1];
    }
  }

  /** `new NeuralNetwork(layerSizes, activationFunctions, randomSeed)` for any size array:
      the Id is drawn first, then `InitializeParameters()` throws `OverflowException` on an
      empty array or a negative size, and otherwise the network is built as the
      constructor builds it. */
  method Create(layerSizes: seq<int>, stream: nat -> real, guids: GuidSource) returns (r: Result<NeuralNetwork>)
    requires Rng.IsSampleStream(stream)
    modifies guids
    ensures r.Throws? <==> !Allocatable(layerSizes)
    ensures r.Throws? ==> r.error == Overflow
    ensures guids.issued == old(guids.issued) + 1
    ensures r.Ok? ==>
      && fresh(r.value) && fresh(r.value.random) && r.value.Valid() && r.value.sizes == layerSizes
      && r.value.id == Guid(guids.issued)
      && r.value.random.stream == stream && r.value.random.position == TotalDraws(r.value.sizes, 1)
      && (forall i | 0 <= i < |r.value.sizes| :: fresh(r.value.activations[i]))
      && forall l {:trigger r.value.weights[l]} | 0 <= l < |r.value.weights| ::
           InitializedLayer(stream, LayerStart(r.value.sizes, l, 1), r.value.sizes[l], r.value.weights[l], r.value.biases[l])
  {
    var allocation := CheckAllocation(layerSizes);
    if allocation.Thrown? {
      var id := guids.NewGuid();
      return Throws(allocation.error);
    }
    var n := new NeuralNetwork(layerSizes, stream, guids);
    return Ok(n);
  }
}
