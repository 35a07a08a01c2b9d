/** The earlier `NeuralNetwork` revision in `Core`: zero biases, weights drawn around 0, an
    unclamped mutation towards a parent (of which `Copy` is the factor-0 case) and an affine
    forward pass that adopts the caller's input array as its first activation buffer.

    As in the later revision the parameter arrays are nested sequences held in fields and the
    activation buffers are arrays. Here the buffer list itself is a field that changes:
    `FeedForward(input)` replaces its first entry by the caller's array. */
module LegacyNetwork {
  import opened Errors
  import opened Layers
  import Rng

  /** `NextDouble() - 0.5`: a sample centred on 0. */
  function Centered(sample: real): (r: real)
    requires 0.0 <= sample < 1.0
    ensures -0.5 <= r < 0.5
  {
    sample - 0.5
  }

  /** Layer `w`, `b` as `InitializeParameters` builds it with its draws starting at `start`:
      every bias 0, and one draw per weight (no draw for the bias). */
  ghost predicate CenteredLayer(stream: nat -> real, start: nat, cols: nat, w: seq<seq<real>>, b: seq<real>)
  {
    && Rng.IsSampleStream(stream)
    && |w| == |b|
    && (forall j | 0 <= j < |w| :: |w[j]| == cols && b[j] == 0.0)
    && (forall j, k | 0 <= j < |w| && 0 <= k < cols :: w[j][k] == Centered(stream(start + RowsDraws(j, cols) + k)))
  }

  /** Layer `w`, `b` is the parent's layer `pw`, `pb` after `Mutate(parent, factor)` with
      draws starting at `start`: per neuron a draw for the bias, then one per weight. */
  ghost predicate PerturbedLayer(stream: nat -> real, start: nat, cols: nat, factor: real,
                                 pw: seq<seq<real>>, pb: seq<real>, w: seq<seq<real>>, b: seq<real>)
  {
    && Rng.IsSampleStream(stream)
    && |w| == |b| == |pw| == |pb|
    && (forall j | 0 <= j < |w| :: |w[j]| == cols && |pw[j]| == cols)
    && (forall j | 0 <= j < |w| :: b[j] == Perturb(pb[j], stream(start + RowsDraws(j, cols + 1)), factor))
    && (forall j, k | 0 <= j < |w| && 0 <= k < cols ::
          w[j][k] == Perturb(pw[j][k], stream(start + RowsDraws(j, cols + 1) + 1 + k), factor))
  }

  /** The first `|w|` weight layers are built by `InitializeParameters` from draw `p0` on. */
  ghost predicate CenteredPrefix(stream: nat -> real, p0: nat, sizes: seq<nat>, w: Weights, b: Biases)
  {
    && |w| == |b| < |sizes|
    && forall l {:trigger w[l]} | 0 <= l < |w| ::
         |w[l]| == sizes[l + 1] && CenteredLayer(stream, p0 + LayerStart(sizes, l, 0), sizes[l], w[l], b[l])
  }

  // ----- InitializeParameters -----

  /** The loops for one neuron: its bias set to 0, then one draw per weight. */
  method InitializeRow(random: Rng.Random, cols: nat) returns (bias: real, row: seq<real>)
    requires random.Valid()
    modifies random
    ensures random.position == old(random.position) + cols
    ensures bias == 0.0 && |row| == cols
    ensures forall k | 0 <= k < cols :: row[k] == Centered(random.stream(old(random.position) + k))
  {
    bias := 0.0;
    row := [];
    var k := 0;
    while k < cols
      invariant 0 <= k <= cols && |row| == k
      invariant random.position == old(random.position) + k
      invariant forall k' | 0 <= k' < k :: row[k'] == Centered(random.stream(old(random.position) + k'))
    {
      var sample := random.NextDouble();
      row := row + [Centered(sample)];
      k := k + 1;
    }
  }

  /** The loop over the neurons of one layer. */
  method InitializeLayer(random: Rng.Random, rows: nat, cols: nat) returns (w: seq<seq<real>>, b: seq<real>)
    requires random.Valid()
    modifies random
    ensures random.position == old(random.position) + RowsDraws(rows, cols)
    ensures |w| == rows && CenteredLayer(random.stream, old(random.position), cols, w, b)
  {
    w, b := [], [];
    var j := 0;
    while j < rows
      invariant 0 <= j <= rows && |w| == j && |b| == j
      invariant random.position == old(random.position) + RowsDraws(j, cols)
      invariant forall j' | 0 <= j' < j :: |w[j']| == cols && b[j'] == 0.0
      invariant forall j', k | 0 <= j' < j && 0 <= k < cols ::
                  w[j'][k] == Centered(random.stream(old(random.position) + RowsDraws(j', cols) + k))
    {
      var bias, row := InitializeRow(random, cols);
      w, b := w + [row], b + [bias];
      j := j + 1;
    }
  }

  /** One pass of the layer loop with `i > 0`: the weights and biases of layer `i`. */
  method InitializeNextLayer(sizes: seq<nat>, random: Rng.Random, ghost p0: nat, w: Weights, b: Biases)
    returns (w': Weights, b': Biases)
    requires random.Valid() && |w| + 1 < |sizes|
    requires CenteredPrefix(random.stream, p0, sizes, w, b)
    requires random.position == p0 + LayerStart(sizes, |w|, 0)
    modifies random
    ensures |w'| == |w| + 1 && |b'| == |b| + 1 && w'[..|w|] == w && b'[..|w|] == b
    ensures CenteredPrefix(random.stream, p0, sizes, w', b')
    ensures random.position == p0 + LayerStart(sizes, |w'|, 0)
  {
    var lw, lb := InitializeLayer(random, sizes[|w| + 1], sizes[|w|]);
    w', b' := w + [lw], b + [lb];
    assert w'[..|w|] == w && b'[..|w|] == b;
  }

  /** `InitializeParameters()`: a zeroed activation buffer per layer, and for every layer after
      the first zero biases and weights drawn neuron by neuron. */
  method InitializeParameters(sizes: seq<nat>, random: Rng.Random)
    returns (activations: seq<array<real>>, w: Weights, b: Biases)
    requires |sizes| >= 1 && random.Valid()
    modifies random
    ensures Shaped(sizes, w, b)
    ensures random.position == old(random.position) + TotalDraws(sizes, 0)
    ensures forall l {:trigger w[l]} | 0 <= l < |w| ::
              CenteredLayer(random.stream, old(random.position) + LayerStart(sizes, l, 0), sizes[l], w[l], b[l])
    ensures |activations| == |sizes|
    ensures forall i | 0 <= i < |sizes| :: fresh(activations[i]) && activations[i].Length == sizes[i]
    ensures forall i, i' | 0 <= i < i' < |sizes| :: activations[i] != activations[i']
  {
    ghost var p0 := random.position;
    activations, w, b := [], [], [];
    var i := 0;
    while i < |sizes|
      invariant 0 <= i <= |sizes| && |activations| == i
      invariant forall i' | 0 <= i' < i :: fresh(activations[i']) && activations[i'].Length == sizes[i']
      invariant forall x, y | 0 <= x < y < i :: activations[x] != activations[y]
      invariant |w| == (if i == 0 then 0 else i - 1)
      invariant CenteredPrefix(random.stream, p0, sizes, w, b)
      invariant random.position == p0 + LayerStart(sizes, |w|, 0)
    {
      var buffer := new real[sizes[i]](_ => 0.0);
      activations := activations + [buffer];
      if i > 0 {
        w, b := InitializeNextLayer(sizes, random, p0, w, b);
      }
      i := i + 1;
    }
  }

  // ----- Mutate(parent, factor) -----

  /** The loops of `Mutate` for one neuron: the bias from the parent's plus a draw, then every
      weight likewise. */
  method PerturbRow(random: Rng.Random, parentBias: real, row: seq<real>, parentRow: seq<real>, factor: real)
    returns (bias: real, r: seq<real>)
    requires random.Valid() && |row| == |parentRow|
    modifies random
    ensures random.position == old(random.position) + |row| + 1
    ensures bias == Perturb(parentBias, random.stream(old(random.position)), factor)
    ensures |r| == |row|
    ensures forall k | 0 <= k < |row| :: r[k] == Perturb(parentRow[k], random.stream(old(random.position) + 1 + k), factor)
  {
    var sample := random.NextDouble();
    bias := Perturb(parentBias, sample, factor);
    r := row;
    var k := 0;
    while k < |row|
      invariant 0 <= k <= |row| && |r| == |row|
      invariant random.position == old(random.position) + 1 + k
      invariant forall k' | 0 <= k' < k :: r[k'] == Perturb(parentRow[k'], random.stream(old(random.position) + 1 + k'), factor)
    {
      sample := random.NextDouble();
      r := r[k := Perturb(parentRow[k], sample, factor)];
      k := k + 1;
    }
  }

  /** The loop of `Mutate` over one layer's neurons. */
  method PerturbLayer(random: Rng.Random, w: seq<seq<real>>, b: seq<real>, pw: seq<seq<real>>, pb: seq<real>,
                      cols: nat, factor: real)
    returns (w': seq<seq<real>>, b': seq<real>)
    requires random.Valid() && |w| == |b| == |pw| == |pb|
    requires forall j | 0 <= j < |w| :: |w[j]| == cols && |pw[j]| == cols
    modifies random
    ensures random.position == old(random.position) + RowsDraws(|w|, cols + 1)
    ensures PerturbedLayer(random.stream, old(random.position), cols, factor, pw, pb, w', b')
  {
    w', b' := w, b;
    var j := 0;
    while j < |w|
      invariant 0 <= j <= |w| && |w'| == |w| && |b'| == |w|
      invariant random.position == old(random.position) + RowsDraws(j, cols + 1)
      invariant forall j' | 0 <= j' < |w| :: |w'[j']| == cols
      invariant forall j' | 0 <= j' < j ::
                  b'[j'] == Perturb(pb[j'], random.stream(old(random.position) + RowsDraws(j', cols + 1)), factor)
      invariant forall j', k | 0 <= j' < j && 0 <= k < cols ::
                  w'[j'][k] == Perturb(pw[j'][k], random.stream(old(random.position) + RowsDraws(j', cols + 1) + 1 + k), factor)
    {
      var bias, row := PerturbRow(random, pb[j], w'[j], pw[j], factor);
      w', b' := w'[j := row], b'[j := bias];
      j := j + 1;
    }
  }

  /** The loop of `Mutate` over the layers, each drawing from where the previous one stopped. */
  method PerturbParameters(sizes: seq<nat>, random: Rng.Random, w0: Weights, b0: Biases, pw: Weights, pb: Biases, factor: real)
    returns (w: Weights, b: Biases)
    requires random.Valid() && Shaped(sizes, w0, b0) && Shaped(sizes, pw, pb)
    modifies random
    ensures Shaped(sizes, w, b)
    ensures random.position == old(random.position) + TotalDraws(sizes, 1)
    ensures forall l {:trigger w[l]} | 0 <= l < |w| ::
              PerturbedLayer(random.stream, old(random.position) + LayerStart(sizes, l, 1), sizes[l], factor, pw[l], pb[l], w[l], b[l])
  {
    ghost var p0 := random.position;
    w, b := w0, b0;
    var i := 0;
    while i < |sizes|
      invariant 0 <= i <= |sizes| && Shaped(sizes, w, b)
      invariant random.position == p0 + LayerStart(sizes, if i == 0 then 0 else i - 1, 1)
      invariant forall l {:trigger w[l]} | 0 <= l < i - 1 ::
                  PerturbedLayer(random.stream, p0 + LayerStart(sizes, l, 1), sizes[l], factor, pw[l], pb[l], w[l], b[l])
    {
      if i > 0 {
        var lw, lb := PerturbLayer(random, w[i - 1], b[i - 1], pw[i - 1], pb[i - 1], sizes[i - 1], factor);
        w, b := w[i - 1 := lw], b[i - 1 := lb];
      }
      i := i + 1;
    }
  }

  // ----- What the parameters satisfy -----

  /** Every initial bias is 0 and every initial weight lies in [-0.5, 0.5). */
  lemma CenteredValuesAreSmall(stream: nat -> real, start: nat, cols: nat, w: seq<seq<real>>, b: seq<real>)
    requires CenteredLayer(stream, start, cols, w, b)
    ensures forall j | 0 <= j < |b| :: b[j] == 0.0
    ensures forall j, k | 0 <= j < |w| && 0 <= k < |w[j]| :: -0.5 <= w[j][k] < 0.5
  {
  }

  /** After `Mutate(parent, factor)` every parameter lies within half the factor of the
      parent's. */
  lemma PerturbedValuesStayNearParent(stream: nat -> real, start: nat, cols: nat, factor: real,
                                      pw: seq<seq<real>>, pb: seq<real>, w: seq<seq<real>>, b: seq<real>)
    requires PerturbedLayer(stream, start, cols, factor, pw, pb, w, b) && factor >= 0.0
    ensures forall j | 0 <= j < |b| :: pb[j] - factor / 2.0 <= b[j] <= pb[j] + factor / 2.0
    ensures forall j, k | 0 <= j < |w| && 0 <= k < |w[j]| :: pw[j][k] - factor / 2.0 <= w[j][k] <= pw[j][k] + factor / 2.0
  {
  }

  /** With factor 0 the layer becomes exactly the parent's: this is what makes `Copy` a copy. */
  lemma ZeroPerturbationCopies(stream: nat -> real, start: nat, cols: nat,
                               pw: seq<seq<real>>, pb: seq<real>, w: seq<seq<real>>, b: seq<real>)
    requires PerturbedLayer(stream, start, cols, 0.0, pw, pb, w, b)
    ensures w == pw && b == pb
  {
    forall j | 0 <= j < |w|
      ensures w[j] == pw[j]
    {
      assert forall k | 0 <= k < cols :: w[j][k] == pw[j][k];
    }
  }

  class NeuralNetwork {
    const sizes: seq<nat>
    var weights: Weights
    var biases: Biases
    /** `activations`: a buffer per layer; the first one is whatever array the last
        `FeedForward` was given. */
    var activations: seq<array<real>>
    /** `_random`, seeded at construction. */
    const random: Rng.Random

    ghost predicate Valid()
      reads this
    {
      && Shaped(sizes, weights, biases)
      && |activations| == |sizes|
      && (forall i | 0 <= i < |sizes| :: activations[i].Length == sizes[i])
      && (forall i, i' | 1 <= i < i' < |sizes| :: activations[i] != activations[i'])
      && random.Valid()
    }

    /** The buffers `FeedForward` writes: every layer's but the input layer's. */
    ghost function LayerBuffers(): set<array<real>>
      reads this
    {
      set i | 1 <= i < |activations| :: activations[i]
    }

    /** `NeuralNetwork(layerSizes, activationFunctions, randomSeed)`: a generator over the
        seed's stream, and `InitializeParameters()`. */
    constructor (layerSizes: seq<nat>, stream: nat -> real)
      requires |layerSizes| >= 1 && Rng.IsSampleStream(stream)
      ensures Valid() && sizes == layerSizes
      ensures fresh(random) && random.stream == stream && random.position == TotalDraws(sizes, 0)
      ensures forall l {:trigger weights[l]} | 0 <= l < |weights| ::
                CenteredLayer(stream, LayerStart(sizes, l, 0), sizes[l], weights[l], biases[l])
      ensures forall i | 0 <= i < |sizes| :: fresh(activations[i])
    {
      sizes := layerSizes;
      var r := new Rng.Random(stream);
      random := r;
      var acts, w, b := InitializeParameters(layerSizes, r);
      activations, weights, biases := acts, w, b;
    }

    /** `Mutate(parentNeural, mutationFactor)`: every bias and weight becomes the parent's
        value plus `(r - 0.5) * factor` for its own draw `r`, unclamped. */
    method Mutate(parent: NeuralNetwork, factor: real)
      requires Valid() && parent.Valid() && parent.sizes == sizes
      modifies this, random
      ensures Valid() && activations == old(activations)
      ensures random.position == old(random.position) + TotalDraws(sizes, 1)
      ensures forall l {:trigger weights[l]} | 0 <= l < |weights| ::
                PerturbedLayer(random.stream, old(random.position) + LayerStart(sizes, l, 1), sizes[l], factor,
                               old(parent.weights[l]), old(parent.biases[l]), weights[l], biases[l])
    {
      weights, biases := PerturbParameters(sizes, random, weights, biases, parent.weights, parent.biases, factor);
    }

    /** `Copy(parentNeural)`: `Mutate(parentNeural, 0)`, which still draws one sample per
        parameter but leaves every parameter equal to the parent's. */
    method Copy(parent: NeuralNetwork)
      requires Valid() && parent.Valid() && parent.sizes == sizes
      modifies this, random
      ensures Valid() && activations == old(activations)
      ensures random.position == old(random.position) + TotalDraws(sizes, 1)
      ensures weights == old(parent.weights) && biases == old(parent.biases)
    {
      ghost var pw, pb := parent.weights, parent.biases;
      ghost var p0 := random.position;
      Mutate(parent, 0.0);
      forall l | 0 <= l < |weights|
        ensures weights[l] == pw[l] && biases[l] == pb[l]
      {
        ZeroPerturbationCopies(random.stream, p0 + LayerStart(sizes, l, 1), sizes[l], pw[l], pb[l], weights[l], biases[l]);
      }
    }

    /** `ApplyActivationFunction(x, layer)`: the identity. */
    function ApplyActivationFunction(x: real, layer: nat): (r: real)
      ensures r == x
    {
      x
    }

    /** One layer of `FeedForward(input)`: every neuron's weighted sum of the previous layer
        plus its bias. When the previous layer's buffer is not this layer's own, the layer
        becomes the affine image of the previous one. */
    method ComputeLayer(layer: nat)
      requires Valid() && 1 <= layer < |sizes|
      modifies activations[layer]
      ensures activations[layer - 1] != activations[layer] ==>
                activations[layer][..] == LayerOutput(weights[layer - 1], biases[layer - 1], activations[layer - 1][..], false)
    {
      var current, previous := activations[layer], activations[layer - 1];
      ghost var a := previous[..];
      var w, b := weights[layer - 1], biases[layer - 1];
      var neuron := 0;
      while neuron < sizes[layer]
        invariant 0 <= neuron <= sizes[layer]
        invariant previous != current ==> previous[..] == a
        invariant previous != current ==> forall n | 0 <= n < neuron :: current[n] == Neuron(w[n], b[n], a, false)
      {
        var weightedSum := 0.0;
        var k := 0;
        while k < sizes[layer - 1]
          invariant 0 <= k <= sizes[layer - 1]
          invariant previous != current ==> weightedSum == Dot(w[neuron], a, k)
        {
          weightedSum := weightedSum + w[neuron][k] * previous[k];
          k := k + 1;
        }
        weightedSum := weightedSum + b[neuron];
        current[neuron] := ApplyActivationFunction(weightedSum, layer);
        neuron := neuron + 1;
      }
    }

    /** `FeedForward(input)`: an `ArgumentException` when the input's length is not the input
        layer's size; otherwise the input array becomes the first activation buffer, every
        later layer is computed from the one before, and the output layer's buffer is
        returned (the input itself when there is only one layer). */
    method FeedForward(input: array<real>) returns (r: Result<array<real>>)
      requires Valid()
      modifies this, LayerBuffers()
      ensures Valid()
      ensures input.Length != sizes[0] ==> r == Throws(Argument) && activations == old(activations)
      ensures input.Length == sizes[0] ==>
                && activations == old(activations)[0 := input]
                && r == Ok(activations[|sizes| - 1])
      ensures input.Length == sizes[0] && input !in old(LayerBuffers()) ==>
                forall l | 0 <= l < |sizes| ::
                  activations[l][..] == Outputs(sizes, weights, biases, old(input[..]), false)[l]
      ensures weights == old(weights) && biases == old(biases)
    {
      if input.Length != sizes[0] {
        return Throws(Argument);
      }
      activations := activations[0 := input];
      ghost var a0 := input[..];
      ghost var fresh0 := input !in old(LayerBuffers());
      var layer := 1;
      while layer < |sizes|
        invariant 1 <= layer <= |sizes| && Valid()
        invariant activations == old(activations)[0 := input]
        invariant weights == old(weights) && biases == old(biases)
        invariant fresh0 ==> activations[0][..] == a0
        invariant fresh0 ==> forall l | 0 <= l < layer ::
                    activations[l][..] == Outputs(sizes, weights, biases, a0, false)[l]
      {
        ComputeLayer(layer);
        ForwardStep(sizes, weights, biases, a0, false, |sizes|, layer);
        layer := layer + 1;
      }
      r := Ok(activations[|sizes| - 1]);
    }
  }

  /** `new NeuralNetwork(layerSizes, activationFunctions, randomSeed)` for any size array:
      `InitializeParameters()` throws `OverflowException` on an empty array or a negative
      size, and otherwise the network is built as the constructor builds it. */
  method Create(layerSizes: seq<int>, stream: nat -> real) returns (r: Result<NeuralNetwork>)
    requires Rng.IsSampleStream(stream)
    ensures r.Throws? <==> !Allocatable(layerSizes)
    ensures r.Throws? ==> r.error == Overflow
    ensures r.Ok? ==>
      && fresh(r.value) && fresh(r.value.random) && r.value.Valid() && r.value.sizes == layerSizes
      && r.value.random.stream == stream && r.value.random.position == TotalDraws(r.value.sizes, 0)
      && (forall i | 0 <= i < |r.value.sizes| :: fresh(r.value.activations[i]))
      && forall l {:trigger r.value.weights[l]} | 0 <= l < |r.value.weights| ::
           CenteredLayer(stream, LayerStart(r.value.sizes, l, 0), r.value.sizes[l], r.value.weights[l], r.value.biases[l])
  {
    var allocation := CheckAllocation(layerSizes);
    if allocation.Thrown? {
      return Throws(allocation.error);
    }
    var n := new NeuralNetwork(layerSizes, stream);
    return Ok(n);
  }
}
