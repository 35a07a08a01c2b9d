/** What the two dense network classes share: the shape of their parameters, the order in
    which their index loops draw samples, the arithmetic of one parameter update and the
    layered weighted-sum forward pass.

    Parameters are indexed as the source indexes them: `biases[l][j]` and `weights[l][j][k]`
    belong to neuron `j` of layer `l + 1`, and `weights[l][j][k]` multiplies neuron `k` of
    layer `l`. Doubles are reals. */
module Layers {
  import opened Errors

  type Weights = seq<seq<seq<real>>>
  type Biases = seq<seq<real>>

  /** The shape `InitializeParameters` allocates for `sizes`: one weight matrix and one bias
      vector per layer after the first, `sizes[l + 1]` rows of `sizes[l]` weights each. */
  ghost predicate Shaped(sizes: seq<nat>, w: Weights, b: Biases)
  {
    && |sizes| >= 1
    && |w| == |sizes| - 1
    && |b| == |sizes| - 1
    && (forall l | 0 <= l < |w| :: |w[l]| == sizes[l + 1] && |b[l]| == sizes[l + 1])
    && (forall l, j | 0 <= l < |w| && 0 <= j < |w[l]| :: |w[l][j]| == sizes[l])
  }

  /** The layer sizes `InitializeParameters` can allocate for: at least one layer (it
      allocates `layerSizes.Length - 1` weight matrices) and no negative size. */
  predicate Allocatable(layerSizes: seq<int>)
  {
    |layerSizes| >= 1 && forall i | 0 <= i < |layerSizes| :: layerSizes[i] >= 0
  }

  /** The allocations `InitializeParameters` makes before and during its loop over the
      layers: `new double[layerSizes.Length - 1][]`, then `new double[layerSizes[i]]` for
      layer after layer. A negative length throws `OverflowException`. */
  method CheckAllocation(layerSizes: seq<int>) returns (outcome: Outcome)
    ensures outcome == Done <==> Allocatable(layerSizes)
    ensures outcome != Done ==> outcome == Thrown(Overflow)
  {
    if |layerSizes| - 1 < 0 {
      return Thrown(Overflow);
    }
    var i := 0;
    while i < |layerSizes|
      invariant 0 <= i <= |layerSizes|
      invariant forall i' | 0 <= i' < i :: layerSizes[i'] >= 0
    {
      if layerSizes[i] < 0 {
        return Thrown(Overflow);
      }
      i := i + 1;
    }
    return Done;
  }

  // ----- The order of the draws -----

  /** How many samples `rows` loop iterations draw when each draws `perRow`. */
  function RowsDraws(rows: nat, perRow: nat): (r: nat)
    ensures rows > 0 ==> r >= perRow
  {
    if rows == 0 then 0 else RowsDraws(rows - 1, perRow) + perRow
  }

  /** How many samples the weight layers before `l` draw, when each row draws its weights and
      `extra` more (1 for a drawn bias, 0 when the bias is not drawn). */
  function LayerStart(sizes: seq<nat>, l: nat, extra: nat): nat
    requires l < |sizes|
  {
    if l == 0 then 0 else LayerStart(sizes, l - 1, extra) + RowsDraws(sizes[l], sizes[l - 1] + extra)
  }

  /** The offset of the first draw for row `j` of weight layer `l`. */
  function RowStart(sizes: seq<nat>, l: nat, j: nat, extra: nat): nat
    requires l + 1 < |sizes|
  {
    LayerStart(sizes, l, extra) + RowsDraws(j, sizes[l] + extra)
  }

  /** How many samples one full pass over the parameters draws. */
  function TotalDraws(sizes: seq<nat>, extra: nat): nat
    requires |sizes| >= 1
  {
    LayerStart(sizes, |sizes| - 1, extra)
  }

  lemma {:induction false} RowsDrawsGrow(i: nat, j: nat, perRow: nat)
    requires i < j
    ensures RowsDraws(i, perRow) + perRow <= RowsDraws(j, perRow)
    decreases j - i
  {
    if i + 1 < j {
      RowsDrawsGrow(i, j - 1, perRow);
    }
  }

  lemma {:induction false} LayerStartMonotone(sizes: seq<nat>, l: nat, m: nat, extra: nat)
    requires l <= m < |sizes|
    ensures LayerStart(sizes, l, extra) <= LayerStart(sizes, m, extra)
    decreases m - l
  {
    if l < m {
      LayerStartMonotone(sizes, l, m - 1, extra);
    }
  }

  /** Each draw of a pass belongs to one parameter: the draws of a row lie strictly before
      those of the next row, and those of a layer strictly before those of the next layer. */
  lemma {:induction false} RowsAreDisjoint(sizes: seq<nat>, l: nat, j: nat, l': nat, j': nat, extra: nat)
    requires l + 1 < |sizes| && l' + 1 < |sizes|
    requires j < sizes[l + 1] && j' < sizes[l' + 1]
    requires l < l' || (l == l' && j < j')
    ensures RowStart(sizes, l, j, extra) + sizes[l] + extra <= RowStart(sizes, l', j', extra)
  {
    if l == l' {
      RowsDrawsGrow(j, j', sizes[l] + extra);
    } else {
      RowsDrawsGrow(j, sizes[l + 1], sizes[l] + extra);
      assert LayerStart(sizes, l + 1, extra) == LayerStart(sizes, l, extra) + RowsDraws(sizes[l + 1], sizes[l] + extra);
      LayerStartMonotone(sizes, l + 1, l', extra);
    }
  }

  // ----- One parameter -----

  /** `Mathf.Clamp(x, lo, hi)`. */
  function Clamp(x: real, lo: real, hi: real): (r: real)
    requires lo <= hi
    ensures lo <= r <= hi
    ensures lo <= x <= hi ==> r == x
    ensures x < lo ==> r == lo
    ensures x > hi ==> r == hi
  {
    if x < lo then lo else if x > hi then hi else x
  }

  /** `value + (sample - 0.5) * factor`: a step of at most half the factor either way. */
  function Perturb(value: real, sample: real, factor: real): (r: real)
    requires 0.0 <= sample < 1.0
    ensures factor >= 0.0 ==> value - factor / 2.0 <= r <= value + factor / 2.0
    ensures factor == 0.0 ==> r == value
  {
    PerturbBounds(value, sample, factor);
    value + (sample - 0.5) * factor
  }

  lemma PerturbBounds(value: real, sample: real, factor: real)
    requires 0.0 <= sample < 1.0
    ensures factor >= 0.0 ==> value - factor / 2.0 <= value + (sample - 0.5) * factor <= value + factor / 2.0
    ensures factor == 0.0 ==> value + (sample - 0.5) * factor == value
  {
    if factor >= 0.0 {
      assert (sample - 0.5) * factor >= -0.5 * factor;
      assert (sample - 0.5) * factor <= 0.5 * factor;
    }
  }

  /** `(x + y) / 2`. */
  function Mean(x: real, y: real): (r: real)
    ensures r - x == y - r
    ensures x <= y ==> x <= r <= y
    ensures y <= x ==> y <= r <= x
  {
    (x + y) / 2.0
  }

  /** `Math.Max(0, x)`. */
  function ReLU(x: real): (r: real)
    ensures r >= 0.0
    ensures x >= 0.0 ==> r == x
    ensures x < 0.0 ==> r == 0.0
  {
    if x < 0.0 then 0.0 else x
  }

  // ----- The forward pass -----

  /** The weighted sum of the first `n` products, accumulated left to right. */
  function Dot(w: seq<real>, a: seq<real>, n: nat): real
    requires n <= |w| && n <= |a|
  {
    if n == 0 then 0.0 else Dot(w, a, n - 1) + w[n - 1] * a[n - 1]
  }

  /** Every row of `w` has one weight per input. */
  ghost predicate Fits(w: seq<seq<real>>, b: seq<real>, a: seq<real>)
  {
    |w| == |b| && forall j | 0 <= j < |w| :: |w[j]| == |a|
  }

  /** One neuron: its weighted sum plus its bias, rectified or not. */
  function Neuron(w: seq<real>, bias: real, a: seq<real>, rectify: bool): real
    requires |w| == |a|
  {
    var sum := Dot(w, a, |a|) + bias;
    if rectify then ReLU(sum) else sum
  }

  /** The activations of one layer computed from the previous layer's `a`. */
  function LayerOutput(w: seq<seq<real>>, b: seq<real>, a: seq<real>, rectify: bool): (r: seq<real>)
    requires Fits(w, b, a)
    ensures |r| == |w|
    ensures forall j | 0 <= j < |w| :: r[j] == Neuron(w[j], b[j], a, rectify)
    ensures rectify ==> forall j | 0 <= j < |w| :: r[j] >= 0.0
    ensures !rectify ==> forall j | 0 <= j < |w| :: r[j] == Dot(w[j], a, |a|) + b[j]
  {
    seq(|w|, j requires 0 <= j < |w| => Neuron(w[j], b[j], a, rectify))
  }

  /** The activations of the first `n` layers for `input`; layer `l` is rectified iff
      `Rectified(l)` (every layer but the last when `hiddenReLU` holds, none otherwise). */
  function Forward(sizes: seq<nat>, w: Weights, b: Biases, input: seq<real>, hiddenReLU: bool, n: nat): (r: seq<seq<real>>)
    requires Shaped(sizes, w, b) && |input| == sizes[0]
    requires 1 <= n <= |sizes|
    ensures |r| == n
    ensures r[0] == input
    ensures forall l | 0 <= l < n :: |r[l]| == sizes[l]
    decreases n
  {
    if n == 1 then [input]
    else
      var prev := Forward(sizes, w, b, input, hiddenReLU, n - 1);
      prev + [LayerOutput(w[n - 2], b[n - 2], prev[n - 2], Rectified(sizes, n - 1, hiddenReLU))]
  }

  /** `ApplyActivationFunction(x, layer)` uses ReLU, rather than the identity, on `layer`. */
  predicate Rectified(sizes: seq<nat>, layer: nat, hiddenReLU: bool)
  {
    hiddenReLU && layer != |sizes| - 1
  }

  /** Every layer after the first is the previous one pushed through its weights. */
  lemma {:induction false} ForwardStep(sizes: seq<nat>, w: Weights, b: Biases, input: seq<real>, hiddenReLU: bool, n: nat, l: nat)
    requires Shaped(sizes, w, b) && |input| == sizes[0]
    requires 1 <= l < n <= |sizes|
    ensures Forward(sizes, w, b, input, hiddenReLU, n)[l]
            == LayerOutput(w[l - 1], b[l - 1], Forward(sizes, w, b, input, hiddenReLU, n)[l - 1], Rectified(sizes, l, hiddenReLU))
    decreases n
  {
    if l < n - 1 {
      ForwardStep(sizes, w, b, input, hiddenReLU, n - 1, l);
    }
  }

  /** The full forward pass. */
  function Outputs(sizes: seq<nat>, w: Weights, b: Biases, input: seq<real>, hiddenReLU: bool): (r: seq<seq<real>>)
    requires Shaped(sizes, w, b) && |input| == sizes[0]
    ensures |r| == |sizes|
  {
    Forward(sizes, w, b, input, hiddenReLU, |sizes|)
  }

  /** With ReLU on the hidden layers, every hidden activation is non-negative, and the output
      layer is the plain affine map of the layer before it. */
  lemma HiddenLayersAreRectified(sizes: seq<nat>, w: Weights, b: Biases, input: seq<real>, l: nat)
    requires Shaped(sizes, w, b) && |input| == sizes[0]
    requires 1 <= l < |sizes|
    ensures l < |sizes| - 1 ==> forall j | 0 <= j < sizes[l] :: Outputs(sizes, w, b, input, true)[l][j] >= 0.0
    ensures l == |sizes| - 1 ==> forall j | 0 <= j < sizes[l] ::
              Outputs(sizes, w, b, input, true)[l][j]
              == Dot(w[l - 1][j], Outputs(sizes, w, b, input, true)[l - 1], sizes[l - 1]) + b[l - 1][j]
  {
    ForwardStep(sizes, w, b, input, true, |sizes|, l);
  }

  /** Without ReLU every layer is the affine map `W·a + b` of the layer before it. */
  lemma LayersAreAffine(sizes: seq<nat>, w: Weights, b: Biases, input: seq<real>, l: nat)
    requires Shaped(sizes, w, b) && |input| == sizes[0]
    requires 1 <= l < |sizes|
    ensures forall j | 0 <= j < sizes[l] ::
              Outputs(sizes, w, b, input, false)[l][j]
              == Dot(w[l - 1][j], Outputs(sizes, w, b, input, false)[l - 1], sizes[l - 1]) + b[l - 1][j]
  {
    ForwardStep(sizes, w, b, input, false, |sizes|, l);
  }
}
