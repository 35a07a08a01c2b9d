/** `Genome` of `Core/Neural`: a graph genome of node genes and connection genes, edited in
    place. `InitializeRandom` wires every input node to every output node; `FeedForward`
    evaluates the nodes in list order; `Copy` replaces the genes by copies of another
    genome's; `Mutate` takes a new Id and applies one of four mutations chosen by one draw.

    The gene lists are sequences of gene objects held in fields (`List.Add`, `Insert` and
    `Clear` reassign them); the genes are objects whose setters change them in place. Their
    contents are described by the values `NodeData` and `ConnData`, and every operation is
    specified by a function on those values. */
module GraphGenome {
  import opened Errors
  import opened Ids
  import Rng

  datatype NodeType = Input | Output | Hidden

  datatype ActivationFunctionType = Sigmoid | Tanh | ReLU | None

  /** `1 / (1 + Math.Exp(-x))` and `Math.Tanh(x)`: transcendental, so given as parameters. */
  datatype Curves = Curves(sigmoid: real -> real, tanh: real -> real)

  /** `Math.Max(0, x)`. */
  function Relu(x: real): (r: real)
    ensures r >= 0.0 && r >= x
    ensures r == x || r == 0.0
  {
    if x >= 0.0 then x else 0.0
  }

  /** The activation function of a node applied to its weighted sum (`NodeGene.Activate`). */
  function Activation(f: ActivationFunctionType, x: real, curves: Curves): real
  {
    match f
    case Sigmoid => curves.sigmoid(x)
    case Tanh => curves.tanh(x)
    case ReLU => Relu(x)
    case None => x
  }

  /** A node gene's state. */
  datatype NodeData = NodeData(id: int, kind: NodeType, activation: ActivationFunctionType,
                               response: real, bias: real, value: real)

  /** A connection gene's state. */
  datatype ConnData = ConnData(innovation: int, from: int, to: int, weight: real, enabled: bool)

  // ----- Ids -----

  function NodeIds(ns: seq<NodeData>): seq<int>
  {
    seq(|ns|, i requires 0 <= i < |ns| => ns[i].id)
  }

  function Innovations(cs: seq<ConnData>): seq<int>
  {
    seq(|cs|, i requires 0 <= i < |cs| => cs[i].innovation)
  }

  /** The value `GetNextNodeId` and `GetNextConnectionId` compute: scanning in order, an id
      not below the running value lifts it to that id plus one; never negative. */
  function NextId(ids: seq<int>): (r: int)
    ensures r >= 0
  {
    if ids == [] then 0
    else
      var m := NextId(ids[..|ids| - 1]);
      if ids[|ids| - 1] >= m then ids[|ids| - 1] + 1 else m
  }

  /** The next id exceeds every id of the list and is 0 or one more than one of them. */
  lemma {:induction false} NextIdIsFresh(ids: seq<int>)
    ensures forall i | 0 <= i < |ids| :: ids[i] < NextId(ids)
    ensures NextId(ids) == 0 || exists i | 0 <= i < |ids| :: ids[i] == NextId(ids) - 1
  {
    if ids != [] {
      var pre := ids[..|ids| - 1];
      NextIdIsFresh(pre);
      assert forall i | 0 <= i < |ids| - 1 :: pre[i] == ids[i];
      if NextId(ids) != ids[|ids| - 1] + 1 && NextId(pre) != 0 {
        var i :| 0 <= i < |pre| && pre[i] == NextId(pre) - 1;
        assert ids[i] == NextId(ids) - 1;
      }
    }
  }

  /** Appending the next id moves the next id on by exactly one. */
  lemma NextIdAfterAppend(ids: seq<int>)
    ensures NextId(ids + [NextId(ids)]) == NextId(ids) + 1
  {
    assert (ids + [NextId(ids)])[..|ids|] == ids;
  }

  predicate DistinctIds(ns: seq<NodeData>)
  {
    forall i, j | 0 <= i < j < |ns| :: ns[i].id != ns[j].id
  }

  predicate DistinctInnovations(cs: seq<ConnData>)
  {
    forall i, j | 0 <= i < j < |cs| :: cs[i].innovation != cs[j].innovation
  }

  /** No two nodes share an id and no two connections share an innovation number. */
  predicate WellFormed(ns: seq<NodeData>, cs: seq<ConnData>)
  {
    DistinctIds(ns) && DistinctInnovations(cs)
  }

  /** The last `outs` nodes, and only they, are output nodes. */
  predicate OutputsLast(ns: seq<NodeData>, outs: nat)
  {
    outs <= |ns| && forall i | 0 <= i < |ns| :: (ns[i].kind == Output <==> i >= |ns| - outs)
  }

  // ----- InitializeRandom -----

  /** `n` nodes of one kind numbered on from `c`, as `InitializeRandom` adds them. */
  function Numbered(c: int, n: nat, kind: NodeType): seq<NodeData>
  {
    seq(n, i requires 0 <= i < n => NodeData(c + i, kind, None, 1.0, 0.0, 0.0))
  }

  /** The connections `InitializeRandom` adds for input node `f` to a list of `k0`
      connections, drawing from sample `start` on: one to each output node, its weight drawn
      after the draw of the connect test (which every sample passes). */
  function Row(f: nat, ins: nat, outs: nat, k0: int, stream: nat -> real, start: nat): seq<ConnData>
    requires Rng.IsSampleStream(stream)
  {
    seq(outs, t requires 0 <= t < outs => Wire(f, ins, k0, stream, start, t))
  }

  /** The `t`-th connection of that row. */
  function Wire(f: nat, ins: nat, k0: int, stream: nat -> real, start: nat, t: nat): ConnData
    requires Rng.IsSampleStream(stream)
  {
    ConnData(k0 + t, f, ins + t, Rng.Signed(stream(start + 2 * t + 1)), true)
  }

  /** The connections of the first `n` input nodes. */
  function Wiring(n: nat, ins: nat, outs: nat, k0: int, stream: nat -> real, start: nat): seq<ConnData>
    requires Rng.IsSampleStream(stream)
  {
    if n == 0 then []
    else
      var w := Wiring(n - 1, ins, outs, k0, stream, start);
      w + Row(n - 1, ins, outs, k0 + |w|, stream, start + 2 * |w|)
  }

  /** Some connection of `cs` goes from node `f` to node `to`. */
  predicate Wires(cs: seq<ConnData>, f: int, to: int)
  {
    exists k | 0 <= k < |cs| :: cs[k].from == f && cs[k].to == to
  }

  /** The wiring of the first `n` input nodes has `n * outs` enabled connections, the k-th
      numbered `k0 + k` and weighted by the k-th odd draw mapped onto [-1, 1), each from an
      input node below `n` to an output node. */
  lemma {:induction false} WiringElements(n: nat, ins: nat, outs: nat, k0: int, stream: nat -> real, start: nat)
    requires Rng.IsSampleStream(stream)
    ensures var w := Wiring(n, ins, outs, k0, stream, start);
      && |w| == n * outs
      && forall k | 0 <= k < |w| ::
           && w[k].innovation == k0 + k && w[k].enabled
           && w[k].weight == Rng.Signed(stream(start + 2 * k + 1))
           && 0 <= w[k].from < n && ins <= w[k].to < ins + outs
  {
    if n > 0 {
      WiringElements(n - 1, ins, outs, k0, stream, start);
      var w' := Wiring(n - 1, ins, outs, k0, stream, start);
      assert (n - 1) * outs + outs == n * outs;
    }
  }

  /** No (input, output) pair is wired twice ... */
  lemma {:induction false} WiringPairsDistinct(n: nat, ins: nat, outs: nat, k0: int, stream: nat -> real, start: nat)
    requires Rng.IsSampleStream(stream)
    ensures forall i, j | 0 <= i < j < |Wiring(n, ins, outs, k0, stream, start)| ::
              Wiring(n, ins, outs, k0, stream, start)[i].from != Wiring(n, ins, outs, k0, stream, start)[j].from
              || Wiring(n, ins, outs, k0, stream, start)[i].to != Wiring(n, ins, outs, k0, stream, start)[j].to
  {
    if n > 0 {
      WiringPairsDistinct(n - 1, ins, outs, k0, stream, start);
      WiringElements(n - 1, ins, outs, k0, stream, start);
      var w' := Wiring(n - 1, ins, outs, k0, stream, start);
      var row := Row(n - 1, ins, outs, k0 + |w'|, stream, start + 2 * |w'|);
      var w := w' + row;
      forall i, j | 0 <= i < j < |w|
        ensures w[i].from != w[j].from || w[i].to != w[j].to
      {
        if j < |w'| {
          assert w[i] == w'[i] && w[j] == w'[j];
        } else if i < |w'| {
          assert w[i] == w'[i] && w[j] == row[j - |w'|];
        } else {
          assert w[i] == row[i - |w'|] && w[j] == row[j - |w'|];
        }
      }
    }
  }

  /** ... and every one is wired. */
  lemma {:induction false} WiringCovers(n: nat, ins: nat, outs: nat, k0: int, stream: nat -> real, start: nat)
    requires Rng.IsSampleStream(stream)
    ensures forall f, to | 0 <= f < n && ins <= to < ins + outs ::
              Wires(Wiring(n, ins, outs, k0, stream, start), f, to)
  {
    if n > 0 {
      WiringCovers(n - 1, ins, outs, k0, stream, start);
      var w' := Wiring(n - 1, ins, outs, k0, stream, start);
      var row := Row(n - 1, ins, outs, k0 + |w'|, stream, start + 2 * |w'|);
      var w := w' + row;
      forall f, to | 0 <= f < n && ins <= to < ins + outs
        ensures Wires(w, f, to)
      {
        if f < n - 1 {
          assert Wires(w', f, to);
          var k :| 0 <= k < |w'| && w'[k].from == f && w'[k].to == to;
          assert w[k] == w'[k];
        } else {
          assert w[|w'| + (to - ins)] == row[to - ins];
        }
      }
    }
  }

  /** The genome `InitializeRandom` builds from empty lists: node i has id i, the first `ins`
      are input nodes and the rest output nodes; there is exactly one connection per
      (input, output) pair, numbered `0 .. ins * outs - 1`, with weights in [-1, 1). */
  lemma InitialGenome(ins: nat, outs: nat, stream: nat -> real, start: nat)
    requires Rng.IsSampleStream(stream)
    ensures var ns := Numbered(0, ins, Input) + Numbered(ins, outs, Output);
      var cs := Wiring(ins, ins, outs, 0, stream, start);
      && |ns| == ins + outs
      && (forall i | 0 <= i < |ns| :: ns[i].id == i && (ns[i].kind == Input <==> i < ins))
      && OutputsLast(ns, outs)
      && WellFormed(ns, cs)
      && |cs| == ins * outs
      && (forall k | 0 <= k < |cs| ::
            && cs[k].innovation == k && cs[k].enabled && -1.0 <= cs[k].weight < 1.0
            && 0 <= cs[k].from < ins <= cs[k].to < |ns|
            && ns[cs[k].from].kind == Input && ns[cs[k].to].kind == Output)
      && (forall i, j | 0 <= i < j < |cs| :: cs[i].from != cs[j].from || cs[i].to != cs[j].to)
      && (forall f, to | 0 <= f < ins <= to < |ns| :: Wires(cs, f, to))
  {
    WiringElements(ins, ins, outs, 0, stream, start);
    WiringPairsDistinct(ins, ins, outs, 0, stream, start);
    WiringCovers(ins, ins, outs, 0, stream, start);
  }

  // ----- FeedForward -----

  /** The first `n` nodes' values set to 0. */
  function ClearedFirst(ns: seq<NodeData>, n: nat): seq<NodeData>
  {
    seq(|ns|, i requires 0 <= i < |ns| => if i < n then ns[i].(value := 0.0) else ns[i])
  }

  /** Step one: every node's value set to 0. */
  function Cleared(ns: seq<NodeData>): seq<NodeData>
  {
    ClearedFirst(ns, |ns|)
  }

  /** The first `n` nodes' values set from the input buffer. */
  function LoadedFirst(ns: seq<NodeData>, input: seq<real>, n: nat): seq<NodeData>
    requires n <= |input|
  {
    seq(|ns|, i requires 0 <= i < |ns| => if i < n then ns[i].(value := input[i]) else ns[i])
  }

  /** The node values after a pass and how the pass ended. */
  datatype Pass = Pass(nodes: seq<NodeData>, outcome: Outcome)

  /** Step two: node i takes input i; an input buffer longer than the node list sets every
      node and then fails on the first missing node. */
  function Load(ns: seq<NodeData>, input: seq<real>): (r: Pass)
    ensures |r.nodes| == |ns|
    ensures r.outcome == Done <==> |input| <= |ns|
    ensures r.outcome != Done ==> r.outcome == Thrown(ArgumentOutOfRange)
    ensures forall i | 0 <= i < |ns| ::
              r.nodes[i] == if i < |input| then ns[i].(value := input[i]) else ns[i]
  {
    if |input| <= |ns| then Pass(LoadedFirst(ns, input, |input|), Done)
    else Pass(LoadedFirst(ns, input, |ns|), Thrown(ArgumentOutOfRange))
  }

  /** `Nodes.Find(n => n.Id == id)` as an index: the first node with the id, or -1. */
  function FindIndex(ns: seq<NodeData>, id: int): (r: int)
    ensures -1 <= r < |ns|
    ensures r >= 0 ==> ns[r].id == id && forall i | 0 <= i < r :: ns[i].id != id
    ensures r < 0 ==> forall i | 0 <= i < |ns| :: ns[i].id != id
  {
    if ns == [] then -1
    else if ns[0].id == id then 0
    else
      var r := FindIndex(ns[1..], id);
      if r < 0 then -1 else r + 1
  }

  /** The weighted sum of a node over the connections `cs`, in list order: every enabled
      connection into the node adds its source's value times the node's response times its
      weight; a missing source node fails with a null reference. */
  function SumOver(ns: seq<NodeData>, target: NodeData, cs: seq<ConnData>): Result<real>
  {
    if cs == [] then Ok(0.0)
    else
      var acc := SumOver(ns, target, cs[..|cs| - 1]);
      var c := cs[|cs| - 1];
      if acc.Throws? || !c.enabled || c.to != target.id then acc
      else
        var j := FindIndex(ns, c.from);
        if j < 0 then Throws(NullReference) else Ok(acc.value + Contribution(ns[j], target, c))
  }

  /** What one connection adds to a node's sum: source value times response times weight. */
  function Contribution(source: NodeData, target: NodeData, c: ConnData): real
  {
    source.value * target.response * c.weight
  }

  /** The enabled connections of `cs`, in order. */
  function Enabled(cs: seq<ConnData>): seq<ConnData>
  {
    if cs == [] then []
    else Enabled(cs[..|cs| - 1]) + (if cs[|cs| - 1].enabled then [cs[|cs| - 1]] else [])
  }

  /** Disabled connections neither add to a sum nor make it fail. */
  lemma {:induction false} SumIgnoresDisabled(ns: seq<NodeData>, target: NodeData, cs: seq<ConnData>)
    ensures SumOver(ns, target, cs) == SumOver(ns, target, Enabled(cs))
  {
    if cs != [] {
      var pre := cs[..|cs| - 1];
      SumIgnoresDisabled(ns, target, pre);
      var e := Enabled(pre);
      if cs[|cs| - 1].enabled {
        var c := cs[|cs| - 1];
        assert Enabled(cs) == e + [c];
        var ec := e + [c];
        assert ec[..|ec| - 1] == e && ec[|ec| - 1] == c;
        var r, r' := SumOver(ns, target, ec), SumOver(ns, target, cs);
        if r'.Ok? {
          assert r.Ok? && r.value == r'.value;
          assert r == Ok(r.value) && r' == Ok(r'.value);
        }
      } else {
        assert Enabled(cs) == e;
      }
    }
  }

  /** The evaluation of node `k`: an input node is skipped, any other node takes its
      activation of its weighted sum plus its bias. */
  function Step(ns: seq<NodeData>, cs: seq<ConnData>, curves: Curves, k: nat): (r: Pass)
    requires k < |ns|
  {
    if ns[k].kind == Input then Pass(ns, Done)
    else match SumOver(ns, ns[k], cs)
      case Throws(e) => Pass(ns, Thrown(e))
      case Ok(sum) => Pass(ns[k := ns[k].(value := Activation(ns[k].activation, sum + ns[k].bias, curves))], Done)
  }

  /** Step three: the nodes from index `k` on evaluated in list order, so later nodes see
      the values of earlier ones; the first failing node ends the pass. */
  function Propagate(ns: seq<NodeData>, cs: seq<ConnData>, curves: Curves, k: nat): Pass
    requires k <= |ns|
    decreases |ns| - k
  {
    if k == |ns| then Pass(ns, Done)
    else
      var s := Step(ns, cs, curves, k);
      if s.outcome.Thrown? then s else Propagate(s.nodes, cs, curves, k + 1)
  }

  /** The evaluation changes node values only, never an input node's and never a node's
      before `k`. */
  lemma {:induction false} PropagateChangesValuesOnly(ns: seq<NodeData>, cs: seq<ConnData>, curves: Curves, k: nat)
    requires k <= |ns|
    ensures var r := Propagate(ns, cs, curves, k);
      && |r.nodes| == |ns|
      && (forall i | 0 <= i < |ns| :: r.nodes[i] == ns[i].(value := r.nodes[i].value))
      && (forall i | 0 <= i < |ns| && (i < k || ns[i].kind == Input) :: r.nodes[i] == ns[i])
    decreases |ns| - k
  {
    if k < |ns| {
      var s := Step(ns, cs, curves, k);
      if s.outcome == Done {
        PropagateChangesValuesOnly(s.nodes, cs, curves, k + 1);
      }
    }
  }

  /** The evaluation over `cs` is the evaluation over its enabled connections. */
  lemma {:induction false} PropagateIgnoresDisabled(ns: seq<NodeData>, cs: seq<ConnData>, curves: Curves, k: nat)
    requires k <= |ns|
    ensures Propagate(ns, cs, curves, k) == Propagate(ns, Enabled(cs), curves, k)
    decreases |ns| - k
  {
    if k < |ns| {
      SumIgnoresDisabled(ns, ns[k], cs);
      var s := Step(ns, cs, curves, k);
      assert s == Step(ns, Enabled(cs), curves, k);
      if s.outcome == Done {
        PropagateIgnoresDisabled(s.nodes, cs, curves, k + 1);
      }
    }
  }

  /** The values of the output nodes, in list order. */
  function OutputValues(ns: seq<NodeData>): seq<real>
  {
    if ns == [] then []
    else OutputValues(ns[..|ns| - 1]) + (if ns[|ns| - 1].kind == Output then [ns[|ns| - 1].value] else [])
  }

  /** The output values of a prefix are a prefix of the output values. */
  lemma {:induction false} OutputValuesOfPrefix(ns: seq<NodeData>, m: nat)
    requires m <= |ns|
    ensures OutputValues(ns[..m]) <= OutputValues(ns)
    decreases |ns|
  {
    if m < |ns| {
      assert ns[..m] == ns[..|ns| - 1][..m];
      OutputValuesOfPrefix(ns[..|ns| - 1], m);
    } else {
      assert ns[..m] == ns;
    }
  }

  /** Output node i lands in the slot numbered by the output nodes before it. */
  lemma OutputSlot(ns: seq<NodeData>, i: nat)
    requires i < |ns| && ns[i].kind == Output
    ensures |OutputValues(ns[..i])| < |OutputValues(ns)|
    ensures OutputValues(ns)[|OutputValues(ns[..i])|] == ns[i].value
  {
    assert ns[..i + 1][..i] == ns[..i];
    OutputValuesOfPrefix(ns, i + 1);
  }

  /** The output buffer after the writes and how they ended. */
  datatype Emission = Emission(buffer: seq<real>, outcome: Outcome)

  /** Step four: the output values written into the buffer from slot 0 on; more output
      nodes than slots fill the buffer and then fail. */
  function Emit(os: seq<real>, buffer: seq<real>): (r: Emission)
    ensures |r.buffer| == |buffer|
    ensures r.outcome == Done <==> |os| <= |buffer|
    ensures r.outcome != Done ==> r.outcome == Thrown(IndexOutOfRange)
    ensures forall i | 0 <= i < |buffer| :: r.buffer[i] == if i < |os| then os[i] else buffer[i]
  {
    if |os| <= |buffer| then Emission(os + buffer[|os|..], Done)
    else Emission(os[..|buffer|], Thrown(IndexOutOfRange))
  }

  /** The node values and output buffer after `FeedForward`, and how it ended. */
  datatype Forwarded = Forwarded(nodes: seq<NodeData>, buffer: seq<real>, outcome: Outcome)

  function Forward(ns: seq<NodeData>, cs: seq<ConnData>, input: seq<real>, buffer: seq<real>, curves: Curves): Forwarded
  {
    var loaded := Load(Cleared(ns), input);
    if loaded.outcome.Thrown? then Forwarded(loaded.nodes, buffer, loaded.outcome)
    else
      var evaluated := Propagate(loaded.nodes, cs, curves, 0);
      if evaluated.outcome.Thrown? then Forwarded(evaluated.nodes, buffer, evaluated.outcome)
      else
        var written := Emit(OutputValues(evaluated.nodes), buffer);
        Forwarded(evaluated.nodes, written.buffer, written.outcome)
  }

  /** `FeedForward` ignores disabled connections; an input node at index i below the input
      length ends with input i and any other input node with 0; every node keeps its gene;
      and when it completes, output node i's value is in the slot numbered by the output
      nodes before it. */
  lemma ForwardFacts(ns: seq<NodeData>, cs: seq<ConnData>, input: seq<real>, buffer: seq<real>, curves: Curves)
    ensures Forward(ns, cs, input, buffer, curves) == Forward(ns, Enabled(cs), input, buffer, curves)
    ensures var r := Forward(ns, cs, input, buffer, curves);
      && |r.nodes| == |ns| && |r.buffer| == |buffer|
      && (forall i | 0 <= i < |ns| :: r.nodes[i] == ns[i].(value := r.nodes[i].value))
      && (forall i | 0 <= i < |ns| && ns[i].kind == Input ::
            r.nodes[i].value == if i < |input| then input[i] else 0.0)
      && (r.outcome == Done ==>
            forall i | 0 <= i < |ns| && ns[i].kind == Output ::
              && |OutputValues(r.nodes[..i])| < |OutputValues(r.nodes)| <= |buffer|
              && r.buffer[|OutputValues(r.nodes[..i])|] == r.nodes[i].value)
  {
    var loaded := Load(Cleared(ns), input);
    if loaded.outcome == Done {
      PropagateIgnoresDisabled(loaded.nodes, cs, curves, 0);
      PropagateChangesValuesOnly(loaded.nodes, cs, curves, 0);
      var evaluated := Propagate(loaded.nodes, cs, curves, 0);
      forall i | 0 <= i < |ns| && ns[i].kind == Output
        ensures |OutputValues(evaluated.nodes[..i])| < |OutputValues(evaluated.nodes)|
        ensures OutputValues(evaluated.nodes)[|OutputValues(evaluated.nodes[..i])|] == evaluated.nodes[i].value
      {
        OutputSlot(evaluated.nodes, i);
      }
    }
  }

  // ----- Mutations -----

  /** A mutation's result: the genes afterwards, how it ended and how many samples it drew. */
  datatype Edit = Edit(nodes: seq<NodeData>, conns: seq<ConnData>, outcome: Outcome, draws: nat)

  /** `(NextDouble() * 2 - 1) * mutationFactor`: at most the factor either way. */
  function Nudge(sample: real, factor: real): (r: real)
    requires 0.0 <= sample < 1.0
    ensures factor >= 0.0 ==> -factor <= r <= factor
    ensures factor > 0.0 ==> r < factor
  {
    var s := Rng.Signed(sample);
    assert factor >= 0.0 ==> -factor <= s * factor <= factor by {
      if factor >= 0.0 {
        assert (s + 1.0) * factor >= 0.0 && (1.0 - s) * factor >= 0.0;
      }
    }
    assert factor > 0.0 ==> s * factor < factor by {
      if factor > 0.0 {
        assert (1.0 - s) * factor > 0.0;
      }
    }
    s * factor
  }

  /** The two draws of `AddNewConnectionMutation` for `n` nodes: a source index below
      `n - outputs - 1`, then a target index from just after it to below `n - 1`; either
      draw throws on an empty or inverted range. */
  datatype Ends = Ends(result: Result<(nat, nat)>, draws: nat)

  function Endpoints(n: int, outs: int, stream: nat -> real, at: nat): (r: Ends)
    requires Rng.IsSampleStream(stream)
    ensures r.result.Ok? ==> r.result.value.0 < r.result.value.1 < n && r.draws == 2
    ensures r.result.Throws? ==> r.result.error == ArgumentOutOfRange && r.draws <= 1
  {
    var bound := n - outs - 1;
    if bound < 0 then Ends(Throws(ArgumentOutOfRange), 0)
    else
      var i1 := Rng.Below(stream(at), bound);
      if i1 + 1 > n - 1 then Ends(Throws(ArgumentOutOfRange), 1)
      else Ends(Ok((i1, Rng.Between(stream(at + 1), i1 + 1, n - 1))), 2)
  }

  /** `AddNewConnectionMutation`: nothing more happens when the two drawn nodes are already
      connected, otherwise a connection between them is appended with the next innovation
      number and a weight nudged from 0 by the factor. */
  function AddConnection(ns: seq<NodeData>, cs: seq<ConnData>, outs: nat, factor: real,
                         stream: nat -> real, at: nat): Edit
    requires Rng.IsSampleStream(stream)
  {
    var ends := Endpoints(|ns|, outs, stream, at);
    if ends.result.Throws? then Edit(ns, cs, Thrown(ends.result.error), ends.draws)
    else
      var from, to := ns[ends.result.value.0].id, ns[ends.result.value.1].id;
      if Wires(cs, from, to) then Edit(ns, cs, Done, 2)
      else Edit(ns, cs + [ConnData(NextId(Innovations(cs)), from, to, Nudge(stream(at + 2), factor), true)], Done, 3)
  }

  /** Add-connection fails exactly when there are no two nodes to pick between; it never
      changes the nodes or an existing connection; it adds nothing when the two drawn nodes
      (the source listed before the target) are already connected, and otherwise adds one
      new enabled connection between them with a fresh innovation number and a weight
      within the factor. */
  lemma AddConnectionFacts(ns: seq<NodeData>, cs: seq<ConnData>, outs: nat, factor: real,
                           stream: nat -> real, at: nat)
    requires Rng.IsSampleStream(stream)
    ensures var e := AddConnection(ns, cs, outs, factor, stream, at);
      && e.nodes == ns
      && (e.outcome != Done <==> |ns| <= outs || |ns| < 2)
      && (e.outcome != Done ==> e.outcome == Thrown(ArgumentOutOfRange) && e.conns == cs)
      && (e.conns == cs || (|e.conns| == |cs| + 1 && e.conns[..|cs|] == cs))
      && (e.outcome == Done && e.conns == cs ==>
            exists i1, i2 | 0 <= i1 < i2 < |ns| :: Wires(cs, ns[i1].id, ns[i2].id))
      && (e.conns != cs ==>
            && !Wires(cs, e.conns[|cs|].from, e.conns[|cs|].to)
            && (exists i1, i2 | 0 <= i1 < i2 < |ns| :: ns[i1].id == e.conns[|cs|].from && ns[i2].id == e.conns[|cs|].to)
            && e.conns[|cs|].innovation == NextId(Innovations(cs)) && e.conns[|cs|].enabled
            && (factor >= 0.0 ==> -factor <= e.conns[|cs|].weight <= factor))
      && (DistinctInnovations(cs) ==> DistinctInnovations(e.conns))
  {
    var e := AddConnection(ns, cs, outs, factor, stream, at);
    var ends := Endpoints(|ns|, outs, stream, at);
    if ends.result.Ok? {
      var (i1, i2) := ends.result.value;
      if e.conns != cs {
        assert ns[i1].id == e.conns[|cs|].from && ns[i2].id == e.conns[|cs|].to;
        assert e.conns[..|cs|] == cs;
        NextIdIsFresh(Innovations(cs));
        assert forall j | 0 <= j < |cs| :: cs[j].innovation == Innovations(cs)[j];
      }
    }
  }

  /** Position of the connection `ModifyWeightsMutation` picks: `Next(Count - 1)`. */
  function WeightIndex(cs: seq<ConnData>, sample: real): (k: nat)
    requires 0.0 <= sample < 1.0 && cs != []
    ensures k < |cs| && (|cs| >= 2 ==> k < |cs| - 1)
  {
    Rng.Below(sample, |cs| - 1)
  }

  /** `ModifyWeightsMutation`: one connection's weight nudged by the factor; throws on an
      empty connection list. */
  function ModifyWeight(ns: seq<NodeData>, cs: seq<ConnData>, factor: real, stream: nat -> real, at: nat): Edit
    requires Rng.IsSampleStream(stream)
  {
    if |cs| - 1 < 0 then Edit(ns, cs, Thrown(ArgumentOutOfRange), 0)
    else
      var k := WeightIndex(cs, stream(at));
      Edit(ns, cs[k := cs[k].(weight := cs[k].weight + Nudge(stream(at + 1), factor))], Done, 2)
  }

  /** Modify-weight fails exactly on an empty connection list and changes nothing then;
      otherwise it changes the weight of one connection, never the last of two or more, by at
      most the factor, and nothing else. */
  lemma ModifyWeightFacts(ns: seq<NodeData>, cs: seq<ConnData>, factor: real, stream: nat -> real, at: nat)
    requires Rng.IsSampleStream(stream)
    ensures var e := ModifyWeight(ns, cs, factor, stream, at);
      && e.nodes == ns && |e.conns| == |cs|
      && (e.outcome != Done <==> cs == [])
      && (e.outcome != Done ==> e.outcome == Thrown(ArgumentOutOfRange) && e.conns == cs)
      && (e.outcome == Done ==>
            exists k | 0 <= k < |cs| ::
              && (|cs| >= 2 ==> k < |cs| - 1)
              && e.conns[k] == cs[k].(weight := e.conns[k].weight)
              && (factor >= 0.0 ==> -factor <= e.conns[k].weight - cs[k].weight <= factor)
              && forall j | 0 <= j < |cs| && j != k :: e.conns[j] == cs[j])
  {
    if cs != [] {
      var k := WeightIndex(cs, stream(at));
      var e := ModifyWeight(ns, cs, factor, stream, at);
      assert e.conns[k] == cs[k].(weight := e.conns[k].weight);
    }
  }

  /** Position of the node `ModifyBiasMutation` picks: `Next(inputs, Count - 1)`. */
  function BiasIndex(ns: seq<NodeData>, ins: nat, sample: real): (k: nat)
    requires 0.0 <= sample < 1.0 && ins <= |ns| - 1
    ensures ins <= k < |ns| && (ins < |ns| - 1 ==> k < |ns| - 1)
  {
    Rng.Between(sample, ins, |ns| - 1)
  }

  /** `ModifyBiasMutation`: the bias of one node past the input nodes nudged by the factor;
      throws when no node lies past them. */
  function ModifyBias(ns: seq<NodeData>, cs: seq<ConnData>, ins: nat, factor: real, stream: nat -> real, at: nat): Edit
    requires Rng.IsSampleStream(stream)
  {
    if ins > |ns| - 1 then Edit(ns, cs, Thrown(ArgumentOutOfRange), 0)
    else
      var k := BiasIndex(ns, ins, stream(at));
      Edit(ns[k := ns[k].(bias := ns[k].bias + Nudge(stream(at + 1), factor))], cs, Done, 2)
  }

  /** Modify-bias fails exactly when no node lies past the inputs and changes nothing then;
      otherwise it changes the bias of one node at an index not below the input count, never
      the last unless it is the only candidate, by at most the factor, and nothing else. */
  lemma ModifyBiasFacts(ns: seq<NodeData>, cs: seq<ConnData>, ins: nat, factor: real, stream: nat -> real, at: nat)
    requires Rng.IsSampleStream(stream)
    ensures var e := ModifyBias(ns, cs, ins, factor, stream, at);
      && e.conns == cs && |e.nodes| == |ns|
      && (e.outcome != Done <==> |ns| <= ins)
      && (e.outcome != Done ==> e.outcome == Thrown(ArgumentOutOfRange) && e.nodes == ns)
      && (e.outcome == Done ==>
            exists k | ins <= k < |ns| ::
              && (ins < |ns| - 1 ==> k < |ns| - 1)
              && e.nodes[k] == ns[k].(bias := e.nodes[k].bias)
              && (factor >= 0.0 ==> -factor <= e.nodes[k].bias - ns[k].bias <= factor)
              && forall j | 0 <= j < |ns| && j != k :: e.nodes[j] == ns[j])
  {
    if ins <= |ns| - 1 {
      var k := BiasIndex(ns, ins, stream(at));
      var e := ModifyBias(ns, cs, ins, factor, stream, at);
      assert e.nodes[k] == ns[k].(bias := e.nodes[k].bias);
    }
  }

  /** The positions of the enabled connections, in order. */
  function EnabledIndices(cs: seq<ConnData>): (r: seq<nat>)
    ensures forall i | 0 <= i < |r| :: r[i] < |cs| && cs[r[i]].enabled
    ensures forall k | 0 <= k < |cs| && cs[k].enabled :: k in r
  {
    if cs == [] then []
    else
      var pre := EnabledIndices(cs[..|cs| - 1]);
      assert forall k | 0 <= k < |cs| - 1 :: cs[..|cs| - 1][k] == cs[k];
      pre + (if cs[|cs| - 1].enabled then [|cs| - 1] else [])
  }

  /** Connection `k` split by a new hidden node inserted before the output nodes: `k` is
      disabled and two connections are appended, into the new node with weight 1 and out of
      it with `k`'s weight, numbered `i1` and `i2`. With fewer nodes than outputs the insert
      throws after `k` has been disabled. */
  function Splice(ns: seq<NodeData>, cs: seq<ConnData>, outs: nat, k: nat, i1: int, i2: int): Edit
    requires k < |cs|
  {
    var cs' := cs[k := cs[k].(enabled := false)];
    if |ns| < outs then Edit(ns, cs', Thrown(ArgumentOutOfRange), 0)
    else
      var id := NextId(NodeIds(ns));
      var p := |ns| - outs;
      Edit(ns[..p] + [NodeData(id, Hidden, None, 1.0, 0.0, 0.0)] + ns[p..],
           cs' + [ConnData(i1, cs[k].from, id, 1.0, true), ConnData(i2, id, cs[k].to, cs[k].weight, true)],
           Done, 0)
  }

  /** The split as written: both new connections take the innovation number computed before
      either is appended. */
  function AsWrittenSplit(ns: seq<NodeData>, cs: seq<ConnData>, outs: nat, k: nat): Edit
    requires k < |cs|
  {
    var i := NextId(Innovations(cs));
    Splice(ns, cs, outs, k, i, i)
  }

  /** The split as intended: the second innovation number is computed after the first
      connection is appended. */
  function Split(ns: seq<NodeData>, cs: seq<ConnData>, outs: nat, k: nat): Edit
    requires k < |cs|
  {
    var i := NextId(Innovations(cs));
    Splice(ns, cs, outs, k, i, i + 1)
  }

  /** As written, the two connections of a completed split share an innovation number, so
      the genome no longer has distinct innovation numbers. */
  lemma AsWrittenSplitRepeatsInnovation(ns: seq<NodeData>, cs: seq<ConnData>, outs: nat, k: nat)
    requires k < |cs| && outs <= |ns|
    ensures var e := AsWrittenSplit(ns, cs, outs, k);
      e.outcome == Done && |e.conns| == |cs| + 2
      && e.conns[|cs|].innovation == e.conns[|cs| + 1].innovation
      && !DistinctInnovations(e.conns)
  {
    var e := AsWrittenSplit(ns, cs, outs, k);
    assert e.conns[|cs|].innovation == e.conns[|cs| + 1].innovation;
  }

  /** `new Random(seed).Next(Count - 1)` as the add-node loop draws it. */
  function AsWrittenDraw(count: int, sample: real): (r: Result<int>)
    requires 0.0 <= sample < 1.0
    ensures r.Ok? <==> count >= 1
    ensures r.Ok? ==> 0 <= r.value < count && (count >= 2 ==> r.value < count - 1)
  {
    if count - 1 < 0 then Throws(ArgumentOutOfRange) else Ok(Rng.Below(sample, count - 1))
  }

  /** Where the add-node selection loop stands after at most `fuel` draws. */
  datatype Search = Found(index: nat, draws: nat) | Failed(error: Exception) | Running

  /** The selection loop as written: draw a position and repeat while that connection is
      disabled, for at most `fuel` rounds. */
  function AsWrittenSelect(cs: seq<ConnData>, stream: nat -> real, at: nat, fuel: nat): Search
    requires Rng.IsSampleStream(stream)
    decreases fuel
  {
    if fuel == 0 then Running
    else match AsWrittenDraw(|cs|, stream(at))
      case Throws(e) => Failed(e)
      case Ok(i) =>
        if cs[i].enabled then Found(i, 1)
        else match AsWrittenSelect(cs, stream, at + 1, fuel - 1)
          case Found(j, d) => Found(j, d + 1)
          case other => other
  }

  /** As written, with two or more connections the loop never picks the last one ... */
  lemma {:induction false} AsWrittenSelectMissesLast(cs: seq<ConnData>, stream: nat -> real, at: nat, fuel: nat)
    requires Rng.IsSampleStream(stream) && |cs| >= 2
    ensures AsWrittenSelect(cs, stream, at, fuel).Found? ==>
              AsWrittenSelect(cs, stream, at, fuel).index < |cs| - 1
    decreases fuel
  {
    if fuel > 0 && !cs[AsWrittenDraw(|cs|, stream(at)).value].enabled {
      AsWrittenSelectMissesLast(cs, stream, at + 1, fuel - 1);
    }
  }

  /** ... and when none but possibly the last is enabled it runs forever: no number of
      rounds ends it. */
  lemma {:induction false} AsWrittenSelectHangs(cs: seq<ConnData>, stream: nat -> real, at: nat, fuel: nat)
    requires Rng.IsSampleStream(stream) && |cs| >= 2
    requires forall i | 0 <= i < |cs| - 1 :: !cs[i].enabled
    ensures AsWrittenSelect(cs, stream, at, fuel) == Running
    decreases fuel
  {
    if fuel > 0 {
      AsWrittenSelectHangs(cs, stream, at + 1, fuel - 1);
    }
  }

  /** The smallest such genome: a disabled connection followed by an enabled one. */
  lemma AsWrittenSelectHangsOnTwo(stream: nat -> real, at: nat, fuel: nat)
    requires Rng.IsSampleStream(stream)
    ensures AsWrittenSelect([ConnData(0, 0, 1, 0.5, false), ConnData(1, 0, 2, 0.5, true)], stream, at, fuel) == Running
  {
    AsWrittenSelectHangs([ConnData(0, 0, 1, 0.5, false), ConnData(1, 0, 2, 0.5, true)], stream, at, fuel);
  }

  /** The selection as intended: one draw picks among the enabled connections. */
  function Pick(cs: seq<ConnData>, sample: real): (k: nat)
    requires 0.0 <= sample < 1.0 && EnabledIndices(cs) != []
    ensures k < |cs| && cs[k].enabled
  {
    var e := EnabledIndices(cs);
    e[Rng.Below(sample, |e|)]
  }

  /** Every enabled connection, the last one included, is picked by some sample. */
  lemma PickReachesEvery(cs: seq<ConnData>, k: nat)
    requires k < |cs| && cs[k].enabled
    ensures exists sample: real :: 0.0 <= sample < 1.0 && Pick(cs, sample) == k
  {
    var e := EnabledIndices(cs);
    var p :| 0 <= p < |e| && e[p] == k;
    var sample := p as real / |e| as real;
    FractionBelow(p, |e|);
    assert Pick(cs, sample) == k;
  }

  lemma FractionBelow(p: nat, n: nat)
    requires p < n
    ensures 0.0 <= p as real / n as real < 1.0
    ensures Rng.Below(p as real / n as real, n) == p
  {
    var x := p as real / n as real;
    assert x * n as real == p as real;
    assert x < 1.0 by {
      assert x * n as real < 1.0 * n as real;
    }
  }

  /** `AddNewNodeMutation` as intended: one enabled connection, drawn with one sample, is
      split; with no enabled connection nothing changes and nothing is drawn. With no
      connection at all the first draw, `Next(-1)`, throws before anything changes, as
      in the source. */
  function AddNode(ns: seq<NodeData>, cs: seq<ConnData>, outs: nat, stream: nat -> real, at: nat): Edit
    requires Rng.IsSampleStream(stream)
  {
    if |cs| - 1 < 0 then Edit(ns, cs, Thrown(ArgumentOutOfRange), 0)
    else if EnabledIndices(cs) == [] then Edit(ns, cs, Done, 0)
    else Split(ns, cs, outs, Pick(cs, stream(at))).(draws := 1)
  }

  /** The split node and connections `Splice` adds when it completes. */
  predicate Spliced(ns: seq<NodeData>, cs: seq<ConnData>, outs: nat, k: nat, e: Edit)
    requires k < |cs|
  {
    var p := |ns| - outs;
    && e.outcome == Done && 0 <= p
    && |e.nodes| == |ns| + 1 && e.nodes[..p] == ns[..p] && e.nodes[p + 1..] == ns[p..]
    && e.nodes[p].kind == Hidden && e.nodes[p].value == 0.0 && e.nodes[p].id !in NodeIds(ns)
    && |e.conns| == |cs| + 2
    && e.conns[k] == cs[k].(enabled := false)
    && (forall j | 0 <= j < |cs| && j != k :: e.conns[j] == cs[j])
    && e.conns[|cs|] == ConnData(e.conns[|cs|].innovation, cs[k].from, e.nodes[p].id, 1.0, true)
    && e.conns[|cs| + 1] == ConnData(e.conns[|cs| + 1].innovation, e.nodes[p].id, cs[k].to, cs[k].weight, true)
  }

  /** Add-node on a genome with its outputs last: with no connection it throws
      `ArgumentOutOfRange` and changes nothing; with no enabled connection nothing
      changes; otherwise it draws once, disables exactly one previously enabled connection,
      inserts one new hidden node just before the output nodes (which stay last) and appends
      the two connections through it; node ids and innovation numbers stay distinct. */
  lemma AddNodeFacts(ns: seq<NodeData>, cs: seq<ConnData>, outs: nat, stream: nat -> real, at: nat)
    requires Rng.IsSampleStream(stream) && OutputsLast(ns, outs) && WellFormed(ns, cs)
    ensures var e := AddNode(ns, cs, outs, stream, at);
      && (cs == [] ==> e == Edit(ns, cs, Thrown(ArgumentOutOfRange), 0))
      && (cs != [] && EnabledIndices(cs) == [] ==> e == Edit(ns, cs, Done, 0))
      && (EnabledIndices(cs) != [] ==>
            e.draws == 1 && exists k | 0 <= k < |cs| :: cs[k].enabled && Spliced(ns, cs, outs, k, e))
      && OutputsLast(e.nodes, outs)
      && WellFormed(e.nodes, e.conns)
  {
    if EnabledIndices(cs) != [] {
      var k := Pick(cs, stream(at));
      SplitFacts(ns, cs, outs, k);
    }
  }

  lemma SplitFacts(ns: seq<NodeData>, cs: seq<ConnData>, outs: nat, k: nat)
    requires k < |cs| && OutputsLast(ns, outs) && WellFormed(ns, cs)
    ensures Spliced(ns, cs, outs, k, Split(ns, cs, outs, k))
    ensures OutputsLast(Split(ns, cs, outs, k).nodes, outs)
    ensures WellFormed(Split(ns, cs, outs, k).nodes, Split(ns, cs, outs, k).conns)
  {
    var id := NextId(NodeIds(ns));
    SpliceShape(ns, cs, outs, k, NextId(Innovations(cs)), NextId(Innovations(cs)) + 1);
    InsertHidden(ns, outs, NodeData(id, Hidden, None, 1.0, 0.0, 0.0));
    var cs' := cs[k := cs[k].(enabled := false)];
    var i := NextId(Innovations(cs));
    assert Innovations(cs') == Innovations(cs);
    AppendFresh(cs', ConnData(i, cs[k].from, id, 1.0, true), ConnData(i + 1, id, cs[k].to, cs[k].weight, true));
  }

  /** The parts of a splice, as the steps of `AddNewNodeMutation` build them. */
  lemma SpliceParts(ns: seq<NodeData>, cs: seq<ConnData>, outs: nat, k: nat, i1: int, i2: int)
    requires k < |cs|
    ensures var e := Splice(ns, cs, outs, k, i1, i2);
      var off := cs[k := cs[k].(enabled := false)];
      var id := NextId(NodeIds(ns));
      && (|ns| < outs ==> e == Edit(ns, off, Thrown(ArgumentOutOfRange), 0))
      && (|ns| >= outs ==>
            && e.outcome == Done
            && e.nodes == ns[..|ns| - outs] + [NodeData(id, Hidden, None, 1.0, 0.0, 0.0)] + ns[|ns| - outs..]
            && e.conns == off + [ConnData(i1, off[k].from, id, 1.0, true), ConnData(i2, id, off[k].to, off[k].weight, true)])
  {
  }

  /** Any splice of a genome with at least `outs` nodes has the shape `Spliced` describes. */
  lemma SpliceShape(ns: seq<NodeData>, cs: seq<ConnData>, outs: nat, k: nat, i1: int, i2: int)
    requires k < |cs| && outs <= |ns|
    ensures Spliced(ns, cs, outs, k, Splice(ns, cs, outs, k, i1, i2))
  {
    var p := |ns| - outs;
    var e := Splice(ns, cs, outs, k, i1, i2);
    assert e.nodes[..p] == ns[..p];
    assert e.nodes[p + 1..] == ns[p..];
    assert e.nodes[p].id == NextId(NodeIds(ns));
    NextIdIsFresh(NodeIds(ns));
  }

  /** A hidden node with a fresh id inserted just before the output nodes keeps them last
      and the ids distinct. */
  lemma InsertHidden(ns: seq<NodeData>, outs: nat, h: NodeData)
    requires OutputsLast(ns, outs) && DistinctIds(ns) && h.kind == Hidden && h.id !in NodeIds(ns)
    ensures var p := |ns| - outs;
      OutputsLast(ns[..p] + [h] + ns[p..], outs) && DistinctIds(ns[..p] + [h] + ns[p..])
  {
    var p := |ns| - outs;
    var r := ns[..p] + [h] + ns[p..];
    forall i | 0 <= i < |r|
      ensures r[i] == if i < p then ns[i] else if i == p then h else ns[i - 1]
    {
    }
    assert forall i | 0 <= i < |ns| :: ns[i].id == NodeIds(ns)[i];
  }

  /** Two connections numbered past every innovation number, one after the other, keep the
      numbers distinct. */
  lemma AppendFresh(cs: seq<ConnData>, c1: ConnData, c2: ConnData)
    requires DistinctInnovations(cs)
    requires c1.innovation == NextId(Innovations(cs)) && c2.innovation == c1.innovation + 1
    ensures DistinctInnovations(cs + [c1, c2])
  {
    NextIdIsFresh(Innovations(cs));
    assert forall j | 0 <= j < |cs| :: cs[j].innovation == Innovations(cs)[j];
  }

  /** `Mutate` after the new Id: one draw picks add-node below 0.1, add-connection below
      0.2, modify-weight below 0.75 and modify-bias otherwise. */
  function Mutation(ns: seq<NodeData>, cs: seq<ConnData>, ins: nat, outs: nat, factor: real,
                    stream: nat -> real, at: nat): Edit
    requires Rng.IsSampleStream(stream)
  {
    var t := stream(at);
    var e :=
      if t < 0.1 then AddNode(ns, cs, outs, stream, at + 1)
      else if t < 0.2 then AddConnection(ns, cs, outs, factor, stream, at + 1)
      else if t < 0.75 then ModifyWeight(ns, cs, factor, stream, at + 1)
      else ModifyBias(ns, cs, ins, factor, stream, at + 1);
    e.(draws := e.draws + 1)
  }

  /** `Mutation` is the selected kind's edit with one draw more. */
  lemma MutationSelects(ns: seq<NodeData>, cs: seq<ConnData>, ins: nat, outs: nat, factor: real,
                        stream: nat -> real, at: nat)
    requires Rng.IsSampleStream(stream)
    ensures var t, e := stream(at), Mutation(ns, cs, ins, outs, factor, stream, at);
      var pick :=
        if t < 0.1 then AddNode(ns, cs, outs, stream, at + 1)
        else if t < 0.2 then AddConnection(ns, cs, outs, factor, stream, at + 1)
        else if t < 0.75 then ModifyWeight(ns, cs, factor, stream, at + 1)
        else ModifyBias(ns, cs, ins, factor, stream, at + 1);
      e.nodes == pick.nodes && e.conns == pick.conns && e.outcome == pick.outcome && e.draws == pick.draws + 1
  {
  }

  /** What every mutation keeps: the output nodes last, ids and innovation numbers distinct,
      at most one node and two connections more, and each existing connection's innovation
      number and endpoints. */
  predicate Keeps(ns: seq<NodeData>, cs: seq<ConnData>, outs: nat, e: Edit)
  {
    && OutputsLast(e.nodes, outs) && WellFormed(e.nodes, e.conns)
    && |cs| <= |e.conns| <= |cs| + 2 && |ns| <= |e.nodes| <= |ns| + 1
    && forall j | 0 <= j < |cs| ::
         e.conns[j].innovation == cs[j].innovation && e.conns[j].from == cs[j].from && e.conns[j].to == cs[j].to
  }

  lemma AddNodeKeeps(ns: seq<NodeData>, cs: seq<ConnData>, outs: nat, stream: nat -> real, at: nat)
    requires Rng.IsSampleStream(stream) && OutputsLast(ns, outs) && WellFormed(ns, cs)
    ensures Keeps(ns, cs, outs, AddNode(ns, cs, outs, stream, at))
  {
    AddNodeFacts(ns, cs, outs, stream, at);
  }

  lemma AddConnectionKeeps(ns: seq<NodeData>, cs: seq<ConnData>, outs: nat, factor: real,
                           stream: nat -> real, at: nat)
    requires Rng.IsSampleStream(stream) && OutputsLast(ns, outs) && WellFormed(ns, cs)
    ensures Keeps(ns, cs, outs, AddConnection(ns, cs, outs, factor, stream, at))
  {
    AddConnectionFacts(ns, cs, outs, factor, stream, at);
    var e := AddConnection(ns, cs, outs, factor, stream, at);
    assert forall j | 0 <= j < |cs| :: e.conns[j] == e.conns[..|cs|][j];
  }

  lemma ModifyWeightKeeps(ns: seq<NodeData>, cs: seq<ConnData>, outs: nat, factor: real,
                          stream: nat -> real, at: nat)
    requires Rng.IsSampleStream(stream) && OutputsLast(ns, outs) && WellFormed(ns, cs)
    ensures Keeps(ns, cs, outs, ModifyWeight(ns, cs, factor, stream, at))
  {
    ModifyWeightFacts(ns, cs, factor, stream, at);
  }

  lemma ModifyBiasKeeps(ns: seq<NodeData>, cs: seq<ConnData>, ins: nat, outs: nat, factor: real,
                        stream: nat -> real, at: nat)
    requires Rng.IsSampleStream(stream) && OutputsLast(ns, outs) && WellFormed(ns, cs)
    ensures Keeps(ns, cs, outs, ModifyBias(ns, cs, ins, factor, stream, at))
  {
    ModifyBiasFacts(ns, cs, ins, factor, stream, at);
    var e := ModifyBias(ns, cs, ins, factor, stream, at);
    assert forall i | 0 <= i < |ns| :: e.nodes[i].id == ns[i].id && e.nodes[i].kind == ns[i].kind;
  }

  /** Each mutation kind shows in what it may change: below 0.1 add-node throws
      `ArgumentOutOfRange` on a genome without connections, and otherwise the connections
      grow by two or nothing changes; below 0.2 the nodes stay and at most one connection is added;
      below 0.75 only connections' weights change; otherwise only nodes' biases. Every
      mutation keeps what `Keeps` names. */
  lemma MutationFacts(ns: seq<NodeData>, cs: seq<ConnData>, ins: nat, outs: nat, factor: real,
                      stream: nat -> real, at: nat)
    requires Rng.IsSampleStream(stream) && OutputsLast(ns, outs) && WellFormed(ns, cs)
    ensures var e := Mutation(ns, cs, ins, outs, factor, stream, at);
      && e.draws >= 1
      && Keeps(ns, cs, outs, e)
      && (stream(at) < 0.1 ==> AddsNode(ns, cs, e))
      && (0.1 <= stream(at) < 0.2 ==> e.nodes == ns && |e.conns| <= |cs| + 1)
      && (0.2 <= stream(at) < 0.75 ==>
            e.nodes == ns && |e.conns| == |cs| &&
            forall j | 0 <= j < |cs| :: e.conns[j] == cs[j].(weight := e.conns[j].weight))
      && (0.75 <= stream(at) ==>
            e.conns == cs && |e.nodes| == |ns| &&
            forall i | 0 <= i < |ns| :: e.nodes[i] == ns[i].(bias := e.nodes[i].bias))
  {
    var t := stream(at);
    if t < 0.1 {
      MutationAddsNode(ns, cs, ins, outs, factor, stream, at);
    } else if t < 0.2 {
      MutationAddsConnection(ns, cs, ins, outs, factor, stream, at);
    } else if t < 0.75 {
      MutationModifiesWeight(ns, cs, ins, outs, factor, stream, at);
    } else {
      MutationModifiesBias(ns, cs, ins, outs, factor, stream, at);
    }
  }

  /** What add-node may do: throw on a genome without connections, leaving it as it was,
      or else complete, leaving it as it was or with one node and two connections more. */
  predicate AddsNode(ns: seq<NodeData>, cs: seq<ConnData>, e: Edit)
  {
    && (cs == [] ==> e.outcome == Thrown(ArgumentOutOfRange) && e.nodes == ns && e.conns == cs)
    && (cs != [] ==>
          && e.outcome == Done
          && ((e.nodes == ns && e.conns == cs) || (|e.nodes| == |ns| + 1 && |e.conns| == |cs| + 2)))
  }

  lemma MutationAddsNode(ns: seq<NodeData>, cs: seq<ConnData>, ins: nat, outs: nat, factor: real,
                         stream: nat -> real, at: nat)
    requires Rng.IsSampleStream(stream) && OutputsLast(ns, outs) && WellFormed(ns, cs) && stream(at) < 0.1
    ensures var e := Mutation(ns, cs, ins, outs, factor, stream, at);
      e.draws >= 1 && Keeps(ns, cs, outs, e) && AddsNode(ns, cs, e)
  {
    var a := AddNode(ns, cs, outs, stream, at + 1);
    AddNodeFacts(ns, cs, outs, stream, at + 1);
    AddNodeKeeps(ns, cs, outs, stream, at + 1);
    assert Mutation(ns, cs, ins, outs, factor, stream, at) == a.(draws := a.draws + 1);
  }

  lemma MutationAddsConnection(ns: seq<NodeData>, cs: seq<ConnData>, ins: nat, outs: nat, factor: real,
                               stream: nat -> real, at: nat)
    requires Rng.IsSampleStream(stream) && OutputsLast(ns, outs) && WellFormed(ns, cs)
    requires 0.1 <= stream(at) < 0.2
    ensures var e := Mutation(ns, cs, ins, outs, factor, stream, at);
      e.draws >= 1 && Keeps(ns, cs, outs, e) && e.nodes == ns && |e.conns| <= |cs| + 1
  {
    var a := AddConnection(ns, cs, outs, factor, stream, at + 1);
    AddConnectionFacts(ns, cs, outs, factor, stream, at + 1);
    AddConnectionKeeps(ns, cs, outs, factor, stream, at + 1);
    assert Mutation(ns, cs, ins, outs, factor, stream, at) == a.(draws := a.draws + 1);
  }

  lemma MutationModifiesWeight(ns: seq<NodeData>, cs: seq<ConnData>, ins: nat, outs: nat, factor: real,
                               stream: nat -> real, at: nat)
    requires Rng.IsSampleStream(stream) && OutputsLast(ns, outs) && WellFormed(ns, cs)
    requires 0.2 <= stream(at) < 0.75
    ensures var e := Mutation(ns, cs, ins, outs, factor, stream, at);
      && e.draws >= 1 && Keeps(ns, cs, outs, e) && e.nodes == ns && |e.conns| == |cs|
      && forall j | 0 <= j < |cs| :: e.conns[j] == cs[j].(weight := e.conns[j].weight)
  {
    var a := ModifyWeight(ns, cs, factor, stream, at + 1);
    ModifyWeightFacts(ns, cs, factor, stream, at + 1);
    ModifyWeightKeeps(ns, cs, outs, factor, stream, at + 1);
    assert Mutation(ns, cs, ins, outs, factor, stream, at) == a.(draws := a.draws + 1);
  }

  lemma MutationModifiesBias(ns: seq<NodeData>, cs: seq<ConnData>, ins: nat, outs: nat, factor: real,
                             stream: nat -> real, at: nat)
    requires Rng.IsSampleStream(stream) && OutputsLast(ns, outs) && WellFormed(ns, cs)
    requires 0.75 <= stream(at)
    ensures var e := Mutation(ns, cs, ins, outs, factor, stream, at);
      && e.draws >= 1 && Keeps(ns, cs, outs, e) && e.conns == cs && |e.nodes| == |ns|
      && forall i | 0 <= i < |ns| :: e.nodes[i] == ns[i].(bias := e.nodes[i].bias)
  {
    var a := ModifyBias(ns, cs, ins, factor, stream, at + 1);
    ModifyBiasFacts(ns, cs, ins, factor, stream, at + 1);
    ModifyBiasKeeps(ns, cs, ins, outs, factor, stream, at + 1);
    assert Mutation(ns, cs, ins, outs, factor, stream, at) == a.(draws := a.draws + 1);
  }

  // ----- Genes -----

  /** `NodeGene`: id, type and activation function fixed, response, bias and value set in
      place. */
  class NodeGene {
    const id: int
    const kind: NodeType
    const activation: ActivationFunctionType
    var response: real
    var bias: real
    var value: real

    function Data(): NodeData
      reads this
    {
      NodeData(id, kind, activation, response, bias, value)
    }

    /** A new node starts with value 0. */
    constructor (id: int, kind: NodeType, activation: ActivationFunctionType, response: real, bias: real)
      ensures Data() == NodeData(id, kind, activation, response, bias, 0.0)
    {
      this.id := id;
      this.kind := kind;
      this.activation := activation;
      this.response := response;
      this.bias := bias;
      value := 0.0;
    }

    method Activate(x: real, curves: Curves)
      modifies this`value
      ensures Data() == old(Data()).(value := Activation(activation, x, curves))
    {
      match activation
      case Sigmoid => value := curves.sigmoid(x);
      case Tanh => value := curves.tanh(x);
      case ReLU => value := if 0.0 >= x then 0.0 else x;
      case None => value := x;
    }

    method SetValue(x: real)
      modifies this`value
      ensures Data() == old(Data()).(value := x)
    {
      value := x;
    }

    method SetBias(x: real)
      modifies this`bias
      ensures Data() == old(Data()).(bias := x)
    {
      bias := x;
    }

    method SetActivationResponse(x: real)
      modifies this`response
      ensures Data() == old(Data()).(response := x)
    {
      response := x;
    }
  }

  /** `ConnectionGene`: innovation number and endpoints fixed, weight and enabled flag set in
      place. */
  class ConnectionGene {
    const innovation: int
    const from: int
    const to: int
    var weight: real
    var enabled: bool

    function Data(): ConnData
      reads this
    {
      ConnData(innovation, from, to, weight, enabled)
    }

    constructor (innovation: int, from: int, to: int, weight: real, enabled: bool)
      ensures Data() == ConnData(innovation, from, to, weight, enabled)
    {
      this.innovation := innovation;
      this.from := from;
      this.to := to;
      this.weight := weight;
      this.enabled := enabled;
    }

    method SetWeight(x: real)
      modifies this`weight
      ensures Data() == old(Data()).(weight := x)
    {
      weight := x;
    }

    method SetIsEnabled(x: bool)
      modifies this`enabled
      ensures Data() == old(Data()).(enabled := x)
    {
      enabled := x;
    }
  }

  predicate Distinct<T(==)>(s: seq<T>)
  {
    forall i, j | 0 <= i < j < |s| :: s[i] != s[j]
  }

  function NodesData(ns: seq<NodeGene>): (r: seq<NodeData>)
    reads ns
    ensures |r| == |ns| && forall i | 0 <= i < |ns| :: r[i] == ns[i].Data()
  {
    seq(|ns|, i requires 0 <= i < |ns| reads ns => ns[i].Data())
  }

  function ConnsData(cs: seq<ConnectionGene>): (r: seq<ConnData>)
    reads cs
    ensures |r| == |cs| && forall i | 0 <= i < |cs| :: r[i] == cs[i].Data()
  {
    seq(|cs|, i requires 0 <= i < |cs| reads cs => cs[i].Data())
  }

  // ----- The loops of FeedForward -----

  /** `Nodes[i].SetValue(0)` for every node. */
  method ClearValues(ns: seq<NodeGene>, ghost data: seq<NodeData>)
    requires Distinct(ns) && NodesData(ns) == data
    modifies ns
    ensures NodesData(ns) == Cleared(data)
  {
    var i := 0;
    while i < |ns|
      invariant i <= |ns|
      invariant NodesData(ns) == ClearedFirst(data, i)
    {
      ns[i].SetValue(0.0);
      i := i + 1;
    }
  }

  /** `Nodes[i].SetValue(_input[i])` for every input slot. */
  method LoadInputs(ns: seq<NodeGene>, input: array<real>, ghost data: seq<NodeData>) returns (outcome: Outcome)
    requires Distinct(ns) && NodesData(ns) == data
    modifies ns
    ensures Pass(NodesData(ns), outcome) == Load(data, input[..])
  {
    var i := 0;
    while i < input.Length
      invariant i <= input.Length && i <= |ns|
      invariant NodesData(ns) == LoadedFirst(data, input[..], i)
    {
      if i >= |ns| {
        return Thrown(ArgumentOutOfRange);
      }
      ns[i].SetValue(input[i]);
      i := i + 1;
    }
    outcome := Done;
  }

  /** `Nodes.Find(n => n.Id == id)`: the first node with the id, or null. */
  method FindNode(ns: seq<NodeGene>, id: int) returns (g: NodeGene?)
    ensures g == null <==> FindIndex(NodesData(ns), id) < 0
    ensures g != null ==> g == ns[FindIndex(NodesData(ns), id)]
  {
    var i := 0;
    while i < |ns|
      invariant i <= |ns|
      invariant forall j | 0 <= j < i :: ns[j].id != id
    {
      if ns[i].id == id {
        FindIndexIsFirst(NodesData(ns), id, i);
        return ns[i];
      }
      i := i + 1;
    }
    g := null;
  }

  lemma FindIndexIsFirst(ns: seq<NodeData>, id: int, i: nat)
    requires i < |ns| && ns[i].id == id && forall j | 0 <= j < i :: ns[j].id != id
    ensures FindIndex(ns, id) == i
  {
  }

  /** The weighted-sum loop of `FeedForward` for one node. */
  method WeightedSum(ns: seq<NodeGene>, target: NodeGene, cs: seq<ConnectionGene>) returns (r: Result<real>)
    ensures r == SumOver(NodesData(ns), target.Data(), ConnsData(cs))
  {
    ghost var nd, td, cd := NodesData(ns), target.Data(), ConnsData(cs);
    var sum := 0.0;
    var j := 0;
    while j < |cs|
      invariant j <= |cs|
      invariant SumOver(nd, td, cd[..j]).Ok? && SumOver(nd, td, cd[..j]).value == sum
    {
      SumOverSnoc(nd, td, cd, j);
      assert cd[j] == cs[j].Data();
      if cs[j].enabled && cs[j].to == target.id {
        var source := FindNode(ns, cs[j].from);
        if source == null {
          ThrowPersists(nd, td, cd, j + 1);
          return Throws(NullReference);
        }
        assert nd[FindIndex(nd, cd[j].from)] == source.Data();
        sum := sum + Contribution(source.Data(), target.Data(), cs[j].Data());
      }
      j := j + 1;
    }
    assert cd[..j] == cd;
    r := Ok(sum);
  }

  /** One more connection of the weighted sum. */
  lemma SumOverSnoc(ns: seq<NodeData>, target: NodeData, cs: seq<ConnData>, j: nat)
    requires j < |cs|
    ensures var acc, c := SumOver(ns, target, cs[..j]), cs[j];
      && (acc.Throws? || !c.enabled || c.to != target.id ==> SumOver(ns, target, cs[..j + 1]) == acc)
      && (acc.Ok? && c.enabled && c.to == target.id && FindIndex(ns, c.from) < 0 ==>
            SumOver(ns, target, cs[..j + 1]) == Throws(NullReference))
      && (acc.Ok? && c.enabled && c.to == target.id && FindIndex(ns, c.from) >= 0 ==>
            && SumOver(ns, target, cs[..j + 1]).Ok?
            && SumOver(ns, target, cs[..j + 1]).value
               == acc.value + Contribution(ns[FindIndex(ns, c.from)], target, c))
  {
    var t := cs[..j + 1];
    assert t[..|t| - 1] == cs[..j] && t[|t| - 1] == cs[j];
  }

  /** Once a prefix of the connections makes the sum fail, the whole list does. */
  lemma {:induction false} ThrowPersists(ns: seq<NodeData>, target: NodeData, cs: seq<ConnData>, j: nat)
    requires j <= |cs| && SumOver(ns, target, cs[..j]).Throws?
    ensures SumOver(ns, target, cs) == SumOver(ns, target, cs[..j])
    decreases |cs| - j
  {
    if j < |cs| {
      assert cs[..j + 1][..j] == cs[..j];
      ThrowPersists(ns, target, cs, j + 1);
    } else {
      assert cs[..j] == cs;
    }
  }

  /** One round of the evaluation loop of `FeedForward`, over connections whose state is
      `graph`. */
  method EvaluateNode(ns: seq<NodeGene>, cs: seq<ConnectionGene>, curves: Curves, k: nat, ghost graph: seq<ConnData>)
      returns (outcome: Outcome)
    requires Distinct(ns) && k < |ns| && ConnsData(cs) == graph
    modifies ns[k]
    ensures ConnsData(cs) == graph
    ensures Pass(NodesData(ns), outcome) == Step(old(NodesData(ns)), graph, curves, k)
  {
    outcome := Done;
    if ns[k].kind != Input {
      var sum := WeightedSum(ns, ns[k], cs);
      if sum.Throws? {
        return Thrown(sum.error);
      }
      ns[k].Activate(sum.value + ns[k].bias, curves);
    }
  }

  /** The evaluation loop of `FeedForward`. */
  method Evaluate(ns: seq<NodeGene>, cs: seq<ConnectionGene>, curves: Curves, ghost data: seq<NodeData>, ghost graph: seq<ConnData>)
      returns (outcome: Outcome)
    requires Distinct(ns) && NodesData(ns) == data && ConnsData(cs) == graph
    modifies ns
    ensures Pass(NodesData(ns), outcome) == Propagate(data, graph, curves, 0)
  {
    ghost var result := Propagate(data, graph, curves, 0);
    var k := 0;
    while k < |ns|
      invariant k <= |ns| && ConnsData(cs) == graph
      invariant Propagate(NodesData(ns), graph, curves, k) == result
    {
      outcome := EvaluateNode(ns, cs, curves, k, graph);
      if outcome.Thrown? {
        return;
      }
      k := k + 1;
    }
    outcome := Done;
  }

  /** The four steps of `FeedForward`, over nodes whose states are `data`, connections whose
      states are `graph` and an output buffer holding `buffer`. */
  method ForwardPass(ns: seq<NodeGene>, cs: seq<ConnectionGene>, input: array<real>, output: array<real>, curves: Curves,
                     ghost data: seq<NodeData>, ghost graph: seq<ConnData>, ghost buffer: seq<real>)
      returns (outcome: Outcome)
    requires Distinct(ns) && input != output
    requires NodesData(ns) == data && ConnsData(cs) == graph && output[..] == buffer
    modifies ns, output
    ensures Forwarded(NodesData(ns), output[..], outcome) == Forward(data, graph, input[..], buffer, curves)
  {
    ClearValues(ns, data);
    ghost var loaded := Load(Cleared(data), input[..]);
    outcome := LoadInputs(ns, input, Cleared(data));
    if outcome.Thrown? {
      return;
    }
    assert NodesData(ns) == loaded.nodes;
    ghost var evaluated := Propagate(loaded.nodes, graph, curves, 0);
    outcome := Evaluate(ns, cs, curves, loaded.nodes, graph);
    if outcome.Thrown? {
      return;
    }
    outcome := WriteOutputs(ns, output, evaluated.nodes, buffer);
  }

  /** The output loop of `FeedForward`: output node values written into `_output` in list
      order. */
  method WriteOutputs(ns: seq<NodeGene>, output: array<real>, ghost data: seq<NodeData>, ghost buffer: seq<real>)
      returns (outcome: Outcome)
    requires NodesData(ns) == data && output[..] == buffer
    modifies output
    ensures Emission(output[..], outcome) == Emit(OutputValues(data), buffer)
  {
    var slot := 0;
    var i := 0;
    while i < |ns|
      invariant i <= |ns| && NodesData(ns) == data
      invariant slot == |OutputValues(data[..i])| <= output.Length
      invariant forall j | 0 <= j < output.Length :: output[j] == if j < slot then OutputValues(data[..i])[j] else buffer[j]
    {
      assert data[..i + 1][..i] == data[..i];
      if ns[i].kind == Output {
        if slot >= output.Length {
          OutputValuesOfPrefix(data, i);
          OutputValuesOfPrefix(data, i + 1);
          outcome := Thrown(IndexOutOfRange);
          assert output[..] == Emit(OutputValues(data), buffer).buffer;
          return;
        }
        output[slot] := ns[i].value;
        slot := slot + 1;
      }
      i := i + 1;
    }
    assert data[..i] == data;
    outcome := Done;
    assert output[..] == Emit(OutputValues(data), buffer).buffer;
  }

  lemma ConnsDataAppend(cs: seq<ConnectionGene>, c: ConnectionGene)
    ensures ConnsData(cs + [c]) == ConnsData(cs) + [c.Data()]
  {
    assert forall j | 0 <= j < |cs| :: (cs + [c])[j] == cs[j];
  }

  lemma NodesDataAppend(ns: seq<NodeGene>, g: NodeGene)
    ensures NodesData(ns + [g]) == NodesData(ns) + [g.Data()]
  {
    assert forall j | 0 <= j < |ns| :: (ns + [g])[j] == ns[j];
  }

  /** A row of `t + 1` connections is the row of `t` and one more. */
  lemma RowGrows(f: nat, ins: nat, t: nat, k0: int, stream: nat -> real, start: nat)
    requires Rng.IsSampleStream(stream)
    ensures Row(f, ins, t + 1, k0, stream, start)
            == Row(f, ins, t, k0, stream, start) + [Wire(f, ins, k0, stream, start, t)]
  {
  }

  /** `Nodes.Add(new NodeGene(Nodes.Count, kind, None, 1.0, 0.0))`, `n` times. */
  method AppendNumbered(ns: seq<NodeGene>, n: nat, kind: NodeType) returns (ns': seq<NodeGene>)
    ensures |ns'| == |ns| + n && NodesData(ns') == NodesData(ns) + Numbered(|ns|, n, kind)
    ensures Distinct(ns) ==> Distinct(ns')
  {
    ghost var before := NodesData(ns);
    ns' := ns;
    var i := 0;
    while i < n
      invariant i <= n && |ns'| == |ns| + i
      invariant NodesData(ns') == before + Numbered(|ns|, i, kind)
      invariant Distinct(ns) ==> Distinct(ns')
    {
      var g := new NodeGene(|ns'|, kind, None, 1.0, 0.0);
      NodesDataAppend(ns', g);
      assert Numbered(|ns|, i + 1, kind) == Numbered(|ns|, i, kind) + [g.Data()];
      ns' := ns' + [g];
      i := i + 1;
    }
  }

  /** The node loops of `InitializeRandom`: `ins` input nodes, then `outs` output nodes. */
  method AppendLayers(ns: seq<NodeGene>, ins: nat, outs: nat, ghost data: seq<NodeData>) returns (ns': seq<NodeGene>)
    requires NodesData(ns) == data
    ensures NodesData(ns') == data + Numbered(|ns|, ins, Input) + Numbered(|ns| + ins, outs, Output)
    ensures Distinct(ns) ==> Distinct(ns')
  {
    ns' := AppendNumbered(ns, ins, Input);
    ns' := AppendNumbered(ns', outs, Output);
  }

  /** The wiring loops of `InitializeRandom`: one row of connections per input index. */
  method AppendWiring(cs: seq<ConnectionGene>, random: Rng.Random, ins: nat, outs: nat,
                      ghost graph: seq<ConnData>, ghost start: nat)
      returns (cs': seq<ConnectionGene>)
    requires random.Valid() && ConnsData(cs) == graph && random.position == start
    modifies random
    ensures ConnsData(cs') == graph + Wiring(ins, ins, outs, |cs|, random.stream, start)
    ensures random.position == start + 2 * (|cs'| - |cs|)
    ensures Distinct(cs) ==> Distinct(cs')
  {
    ghost var k0 := |cs|;
    ghost var wired: seq<ConnData> := [];
    cs' := cs;
    var f := 0;
    while f < ins
      invariant f <= ins && wired == Wiring(f, ins, outs, k0, random.stream, start)
      invariant ConnsData(cs') == graph + wired && |cs'| == k0 + |wired|
      invariant random.position == start + 2 * |wired|
      invariant Distinct(cs) ==> Distinct(cs')
    {
      ghost var row := Row(f, ins, outs, k0 + |wired|, random.stream, start + 2 * |wired|);
      cs' := AppendRow(cs', random, f, ins, outs, graph + wired);
      WiringStep(graph, wired, row, f, ins, outs, k0, random.stream, start);
      wired := wired + row;
      f := f + 1;
    }
  }

  lemma WiringSnoc(n: nat, ins: nat, outs: nat, k0: int, stream: nat -> real, start: nat)
    requires Rng.IsSampleStream(stream)
    ensures Wiring(n + 1, ins, outs, k0, stream, start)
            == Wiring(n, ins, outs, k0, stream, start)
               + Row(n, ins, outs, k0 + |Wiring(n, ins, outs, k0, stream, start)|, stream, start + 2 * |Wiring(n, ins, outs, k0, stream, start)|)
  {
  }

  /** One more row of the wiring loop, on values. */
  lemma WiringStep(graph: seq<ConnData>, w: seq<ConnData>, row: seq<ConnData>,
                   f: nat, ins: nat, outs: nat, k0: int, stream: nat -> real, start: nat)
    requires Rng.IsSampleStream(stream) && w == Wiring(f, ins, outs, k0, stream, start)
    requires row == Row(f, ins, outs, k0 + |w|, stream, start + 2 * |w|)
    ensures graph + w + row == graph + (w + row) && w + row == Wiring(f + 1, ins, outs, k0, stream, start)
  {
    Associative(graph, w, row);
    WiringSnoc(f, ins, outs, k0, stream, start);
  }

  /** A connection numbered by the next innovation number moves it on by one. */
  lemma NextAfterAppendingNext(cs: seq<ConnData>, c: ConnData)
    requires c.innovation == NextId(Innovations(cs))
    ensures NextId(Innovations(cs + [c])) == c.innovation + 1
  {
    assert Innovations(cs + [c]) == Innovations(cs) + [c.innovation];
    NextIdAfterAppend(Innovations(cs));
  }

  lemma AppendPair<T>(s: seq<T>, a: T, b: T)
    ensures s + [a] + [b] == s + [a, b]
  {
  }

  /** `InitializeRandom` on a genome without genes yields the genome `InitialGenome` describes. */
  lemma InitializedFromEmpty(n0: seq<NodeData>, c0: seq<ConnData>, ns: seq<NodeData>, cs: seq<ConnData>,
                             ins: nat, outs: nat, stream: nat -> real, start: nat)
    requires Rng.IsSampleStream(stream) && n0 == [] && c0 == []
    requires ns == n0 + Numbered(0, ins, Input) + Numbered(ins, outs, Output)
    requires cs == c0 + Wiring(ins, ins, outs, 0, stream, start)
    ensures OutputsLast(ns, outs) && WellFormed(ns, cs)
  {
    Associative(n0, Numbered(0, ins, Input), Numbered(ins, outs, Output));
    assert ns == Numbered(0, ins, Input) + Numbered(ins, outs, Output);
    assert cs == Wiring(ins, ins, outs, 0, stream, start);
    InitialGenome(ins, outs, stream, start);
  }

  lemma Associative<T>(a: seq<T>, b: seq<T>, c: seq<T>)
    ensures a + b + c == a + (b + c)
  {
  }

  /** One connect test (which every sample passes) and one weight draw per output index
      `to`, appending a connection from `f` to `to` numbered by the list length. */
  method AppendRow(cs: seq<ConnectionGene>, random: Rng.Random, f: nat, ins: nat, outs: nat, ghost graph: seq<ConnData>)
      returns (cs': seq<ConnectionGene>)
    requires random.Valid() && ConnsData(cs) == graph
    modifies random
    ensures |cs'| == |cs| + outs
    ensures ConnsData(cs') == graph + Row(f, ins, outs, |cs|, random.stream, old(random.position))
    ensures random.position == old(random.position) + 2 * outs
    ensures Distinct(cs) ==> Distinct(cs')
  {
    ghost var k0, start, before := |cs|, random.position, graph;
    cs' := cs;
    var to := ins;
    while to < ins + outs
      invariant ins <= to <= ins + outs && |cs'| == k0 + (to - ins)
      invariant ConnsData(cs') == before + Row(f, ins, to - ins, k0, random.stream, start)
      invariant random.position == start + 2 * (to - ins)
      invariant Distinct(cs) ==> Distinct(cs')
    {
      RowGrows(f, ins, to - ins, k0, random.stream, start);
      cs' := AppendWire(cs', random, f, to, Wire(f, ins, k0, random.stream, start, to - ins));
      to := to + 1;
    }
  }

  /** One step of that loop: the connect test and, as it always passes, the weight draw and
      the new connection, which is `w`. */
  method AppendWire(cs: seq<ConnectionGene>, random: Rng.Random, f: nat, to: int, ghost w: ConnData)
      returns (cs': seq<ConnectionGene>)
    requires random.Valid()
    requires w == ConnData(|cs|, f, to, Rng.Signed(random.stream(random.position + 1)), true)
    modifies random
    ensures ConnsData(cs') == ConnsData(cs) + [w]
    ensures random.position == old(random.position) + 2
    ensures Distinct(cs) ==> Distinct(cs')
  {
    var test := random.NextDouble();
    if test <= 1.0 {
      var sample := random.NextDouble();
      var c := new ConnectionGene(|cs|, f, to, sample * 2.0 - 1.0, true);
      ConnsDataAppend(cs, c);
      cs' := cs + [c];
    } else {
      assert false;
    }
  }

  /** The two index draws of `AddNewConnectionMutation` over `n` nodes of which `outs` are
      output nodes. */
  method DrawEndpoints(random: Rng.Random, n: int, outs: int) returns (r: Result<(nat, nat)>)
    requires random.Valid()
    modifies random
    ensures r == Endpoints(n, outs, random.stream, old(random.position)).result
    ensures random.position == old(random.position) + Endpoints(n, outs, random.stream, old(random.position)).draws
  {
    var i1 := random.Next(n - outs - 1);
    if i1.Throws? {
      return Throws(i1.error);
    }
    var i2 := random.NextBetween(i1.value + 1, n - 1);
    if i2.Throws? {
      return Throws(i2.error);
    }
    r := Ok((i1.value, i2.value));
  }

  /** The weight draw of `AddNewConnectionMutation` and the new gene appended to connections
      whose states are `graph`; `innovation` is the next connection id. */
  method AppendConnection(cs: seq<ConnectionGene>, random: Rng.Random, innovation: int, from: int, to: int,
                          factor: real, ghost graph: seq<ConnData>) returns (cs': seq<ConnectionGene>)
    requires random.Valid() && ConnsData(cs) == graph
    modifies random
    ensures ConnsData(cs') == graph + [ConnData(innovation, from, to, Nudge(random.stream(old(random.position)), factor), true)]
    ensures random.position == old(random.position) + 1
    ensures Distinct(cs) ==> Distinct(cs')
  {
    var sample := random.NextDouble();
    cs' := AppendGene(cs, innovation, from, to, Nudge(sample, factor), graph);
  }

  lemma DistinctAppend<T>(s: seq<T>, x: T)
    requires x !in s
    ensures Distinct(s) ==> Distinct(s + [x])
  {
  }

  lemma DistinctInsert<T>(s: seq<T>, at: nat, x: T)
    requires at <= |s| && x !in s
    ensures Distinct(s) ==> Distinct(s[..at] + [x] + s[at..])
  {
    var r := s[..at] + [x] + s[at..];
    assert forall j | 0 <= j < |r| :: r[j] == if j < at then s[j] else if j == at then x else s[j - 1];
  }

  /** `nodes.Insert(at, g)`. */
  lemma NodesDataInsert(ns: seq<NodeGene>, at: nat, g: NodeGene)
    requires at <= |ns|
    ensures NodesData(ns[..at] + [g] + ns[at..]) == NodesData(ns)[..at] + [g.Data()] + NodesData(ns)[at..]
  {
    var r := ns[..at] + [g] + ns[at..];
    assert forall j | 0 <= j < |r| :: r[j] == if j < at then ns[j] else if j == at then g else ns[j - 1];
  }

  /** The split of `AddNewNodeMutation` for connection `k`, over nodes and connections whose
      states are `data` and `graph`: `k` is disabled, the new hidden node is inserted before
      the `outs` output nodes and the two connections through it are appended, the second
      numbered after the first has been added. */
  method SplitConnection(ns: seq<NodeGene>, cs: seq<ConnectionGene>, k: nat, outs: nat,
                         ghost data: seq<NodeData>, ghost graph: seq<ConnData>)
      returns (ns': seq<NodeGene>, cs': seq<ConnectionGene>, outcome: Outcome)
    requires k < |cs| && Distinct(cs) && NodesData(ns) == data && ConnsData(cs) == graph
    modifies cs
    ensures var e := Split(data, graph, outs, k);
      NodesData(ns') == e.nodes && ConnsData(cs') == e.conns && outcome == e.outcome
    ensures Distinct(ns) ==> Distinct(ns')
    ensures Distinct(cs')
  {
    DisableAt(cs, k, graph);
    var newNodeId, newConnection1Id := SplitIds(ns, cs, k, data, graph);
    SpliceParts(data, graph, outs, k, newConnection1Id, newConnection1Id + 1);
    ns', cs', outcome := SpliceIn(ns, cs, k, outs, newNodeId, newConnection1Id, data, graph[k := graph[k].(enabled := false)]);
  }

  /** The rest of the split once connection `k` is disabled, leaving connections whose
      states are `graph`, and the new ids are known: the insert, which throws with fewer
      nodes than outputs, and the two appends. */
  method SpliceIn(ns: seq<NodeGene>, cs: seq<ConnectionGene>, k: nat, outs: nat, id: int, i1: int,
                  ghost data: seq<NodeData>, ghost graph: seq<ConnData>)
      returns (ns': seq<NodeGene>, cs': seq<ConnectionGene>, outcome: Outcome)
    requires k < |graph| && NodesData(ns) == data && ConnsData(cs) == graph
    requires i1 == NextId(Innovations(graph))
    ensures |data| < outs ==> NodesData(ns') == data && ConnsData(cs') == graph && outcome == Thrown(ArgumentOutOfRange)
    ensures |data| >= outs ==>
      && NodesData(ns') == data[..|data| - outs] + [NodeData(id, Hidden, None, 1.0, 0.0, 0.0)] + data[|data| - outs..]
      && ConnsData(cs') == graph + [ConnData(i1, graph[k].from, id, 1.0, true), ConnData(i1 + 1, id, graph[k].to, graph[k].weight, true)]
      && outcome == Done
    ensures Distinct(ns) ==> Distinct(ns')
    ensures Distinct(cs) ==> Distinct(cs')
  {
    if |ns| < outs {
      return ns, cs, Thrown(ArgumentOutOfRange);
    }
    ns' := InsertHiddenNode(ns, |ns| - outs, id, data);
    cs' := AppendThrough(cs, k, id, i1, graph);
    outcome := Done;
  }

  /** `GetNextNodeId` and `GetNextConnectionId` after connection `k` of `graph` has been
      disabled: disabling keeps the innovation numbers. */
  method SplitIds(ns: seq<NodeGene>, cs: seq<ConnectionGene>, k: nat, ghost data: seq<NodeData>, ghost graph: seq<ConnData>)
      returns (nodeId: int, innovation: int)
    requires k < |graph| && NodesData(ns) == data && ConnsData(cs) == graph[k := graph[k].(enabled := false)]
    ensures nodeId == NextId(NodeIds(data)) && innovation == NextId(Innovations(graph))
    ensures innovation == NextId(Innovations(graph[k := graph[k].(enabled := false)]))
  {
    assert Innovations(ConnsData(cs)) == Innovations(graph);
    nodeId := NextNodeId(ns);
    innovation := NextInnovation(cs);
  }

  /** `Nodes.Insert(at, new NodeGene(id, Hidden, None, 1, 0))`, over nodes whose states are
      `data`. */
  method InsertHiddenNode(ns: seq<NodeGene>, at: nat, id: int, ghost data: seq<NodeData>) returns (ns': seq<NodeGene>)
    requires at <= |ns| && NodesData(ns) == data
    ensures NodesData(ns') == data[..at] + [NodeData(id, Hidden, None, 1.0, 0.0, 0.0)] + data[at..]
    ensures Distinct(ns) ==> Distinct(ns')
  {
    var newNode := new NodeGene(id, Hidden, None, 1.0, 0.0);
    NodesDataInsert(ns, at, newNode);
    DistinctInsert(ns, at, newNode);
    ns' := ns[..at] + [newNode] + ns[at..];
  }

  /** The two connections through the new node `id` that split connection `k`, appended to
      connections whose states are `graph`, the first numbered `i1` and the second numbered
      by `GetNextConnectionId` after the first has been added. */
  method AppendThrough(cs: seq<ConnectionGene>, k: nat, id: int, i1: int, ghost graph: seq<ConnData>)
      returns (cs': seq<ConnectionGene>)
    requires k < |cs| && ConnsData(cs) == graph && i1 == NextId(Innovations(graph))
    ensures ConnsData(cs') == graph + [ConnData(i1, graph[k].from, id, 1.0, true),
                                       ConnData(i1 + 1, id, graph[k].to, graph[k].weight, true)]
    ensures Distinct(cs) ==> Distinct(cs')
  {
    var from, to, weight := cs[k].from, cs[k].to, cs[k].weight;
    ghost var d1 := ConnData(i1, from, id, 1.0, true);
    var cs1 := AppendGene(cs, i1, from, id, 1.0, graph);
    var i2 := NextInnovationAfter(cs1, graph, d1);
    cs' := AppendGene(cs1, i2, id, to, weight, graph + [d1]);
    AppendPair(graph, d1, ConnData(i1 + 1, id, to, weight, true));
  }

  /** `GetNextConnectionId` right after a connection numbered by it was appended. */
  method NextInnovationAfter(cs: seq<ConnectionGene>, ghost graph: seq<ConnData>, ghost c: ConnData)
      returns (next: int)
    requires ConnsData(cs) == graph + [c] && c.innovation == NextId(Innovations(graph))
    ensures next == c.innovation + 1
  {
    next := NextInnovation(cs);
    NextAfterAppendingNext(graph, c);
  }

  /** `Connections.Add(new ConnectionGene(innovation, from, to, weight))` to connections
      whose states are `graph`. */
  method AppendGene(cs: seq<ConnectionGene>, innovation: int, from: int, to: int, weight: real,
                    ghost graph: seq<ConnData>) returns (cs': seq<ConnectionGene>)
    requires ConnsData(cs) == graph
    ensures ConnsData(cs') == graph + [ConnData(innovation, from, to, weight, true)]
    ensures Distinct(cs) ==> Distinct(cs')
  {
    var c := new ConnectionGene(innovation, from, to, weight, true);
    ConnsDataAppend(cs, c);
    DistinctAppend(cs, c);
    cs' := cs + [c];
  }

  /** The body of `AddNewNodeMutation` over nodes and connections whose states are `data`
      and `graph`. */
  method AddNodeTo(ns: seq<NodeGene>, cs: seq<ConnectionGene>, random: Rng.Random, outs: nat,
                   ghost data: seq<NodeData>, ghost graph: seq<ConnData>)
      returns (ns': seq<NodeGene>, cs': seq<ConnectionGene>, outcome: Outcome)
    requires random.Valid() && Distinct(cs) && NodesData(ns) == data && ConnsData(cs) == graph
    modifies cs, random
    ensures var e := AddNode(data, graph, outs, random.stream, old(random.position));
      NodesData(ns') == e.nodes && ConnsData(cs') == e.conns && outcome == e.outcome
      && random.position == old(random.position) + e.draws
    ensures Distinct(ns) ==> Distinct(ns')
    ensures Distinct(cs')
  {
    ghost var start := random.position;
    if |cs| - 1 < 0 {
      // the source's first `Next(Connections.Count - 1)` throws on an empty list
      var first := random.Next(|cs| - 1);
      return ns, cs, Thrown(first.error);
    }
    var enabled := EnabledPositions(cs);
    if enabled == [] {
      return ns, cs, Done;
    }
    var p := random.Next(|enabled|);
    var k := enabled[p.value];
    assert k == Pick(graph, random.stream(start));
    ns', cs', outcome := SplitConnection(ns, cs, k, outs, data, graph);
  }

  /** The body of `ModifyWeightsMutation` over connections whose states are `graph`, beside
      nodes whose states are `data`. */
  method ReweighOne(cs: seq<ConnectionGene>, random: Rng.Random, factor: real,
                    ghost data: seq<NodeData>, ghost graph: seq<ConnData>) returns (outcome: Outcome)
    requires random.Valid() && Distinct(cs) && ConnsData(cs) == graph
    modifies cs, random
    ensures var e := ModifyWeight(data, graph, factor, random.stream, old(random.position));
      ConnsData(cs) == e.conns && outcome == e.outcome && random.position == old(random.position) + e.draws
  {
    ghost var start := random.position;
    var k := random.Next(|cs| - 1);
    if k.Throws? {
      return Thrown(k.error);
    }
    var current := cs[k.value].weight;
    var sample := random.NextDouble();
    ReweighAt(cs, k.value, current + Nudge(sample, factor), graph);
    outcome := Done;
    assert k.value == WeightIndex(graph, random.stream(start)) && sample == random.stream(start + 1);
  }

  /** The body of `ModifyBiasMutation` over nodes whose states are `data`, the first `ins` of
      them input nodes, beside connections whose states are `graph`. */
  method RebiasOne(ns: seq<NodeGene>, random: Rng.Random, ins: nat, factor: real,
                   ghost data: seq<NodeData>, ghost graph: seq<ConnData>) returns (outcome: Outcome)
    requires random.Valid() && Distinct(ns) && NodesData(ns) == data
    modifies ns, random
    ensures var e := ModifyBias(data, graph, ins, factor, random.stream, old(random.position));
      NodesData(ns) == e.nodes && outcome == e.outcome && random.position == old(random.position) + e.draws
  {
    ghost var start := random.position;
    var k := random.NextBetween(ins, |ns| - 1);
    if k.Throws? {
      return Thrown(k.error);
    }
    var current := ns[k.value].bias;
    var sample := random.NextDouble();
    RebiasAt(ns, k.value, current + Nudge(sample, factor), data);
    outcome := Done;
    assert k.value == BiasIndex(data, ins, random.stream(start)) && sample == random.stream(start + 1);
  }

  /** The body of `AddNewConnectionMutation` over nodes and connections whose states are
      `data` and `graph`; `next` is the next connection id. */
  method AddConnectionTo(ns: seq<NodeGene>, cs: seq<ConnectionGene>, random: Rng.Random, outs: nat, factor: real,
                         next: int, ghost data: seq<NodeData>, ghost graph: seq<ConnData>)
      returns (cs': seq<ConnectionGene>, outcome: Outcome)
    requires random.Valid() && NodesData(ns) == data && ConnsData(cs) == graph
    requires next == NextId(Innovations(graph))
    modifies random
    ensures var e := AddConnection(data, graph, outs, factor, random.stream, old(random.position));
      ConnsData(cs') == e.conns && outcome == e.outcome && random.position == old(random.position) + e.draws
    ensures Distinct(cs) ==> Distinct(cs')
  {
    var ends := DrawEndpoints(random, |ns|, outs);
    if ends.Throws? {
      return cs, Thrown(ends.error);
    }
    var from, to := ns[ends.value.0].id, ns[ends.value.1].id;
    assert from == data[ends.value.0].id && to == data[ends.value.1].id;
    var connected := HasConnection(cs, from, to);
    if connected {
      return cs, Done;
    }
    cs' := AppendConnection(cs, random, next, from, to, factor, graph);
    outcome := Done;
  }

  // ----- The gene edits of the mutations -----

  /** `Connections[k].SetWeight(x)`, over connections whose states are `graph`. */
  method ReweighAt(cs: seq<ConnectionGene>, k: nat, x: real, ghost graph: seq<ConnData>)
    requires k < |cs| && Distinct(cs) && ConnsData(cs) == graph
    modifies cs[k]
    ensures ConnsData(cs) == graph[k := graph[k].(weight := x)]
  {
    cs[k].SetWeight(x);
    assert forall j | 0 <= j < |cs| :: ConnsData(cs)[j] == graph[k := graph[k].(weight := x)][j];
  }

  /** `Connections[k].SetIsEnabled(false)`, over connections whose states are `graph`. */
  method DisableAt(cs: seq<ConnectionGene>, k: nat, ghost graph: seq<ConnData>)
    requires k < |cs| && Distinct(cs) && ConnsData(cs) == graph
    modifies cs[k]
    ensures ConnsData(cs) == graph[k := graph[k].(enabled := false)]
  {
    cs[k].SetIsEnabled(false);
    assert forall j | 0 <= j < |cs| :: ConnsData(cs)[j] == graph[k := graph[k].(enabled := false)][j];
  }

  /** `Nodes[k].SetBias(x)`, over nodes whose states are `data`. */
  method RebiasAt(ns: seq<NodeGene>, k: nat, x: real, ghost data: seq<NodeData>)
    requires k < |ns| && Distinct(ns) && NodesData(ns) == data
    modifies ns[k]
    ensures NodesData(ns) == data[k := data[k].(bias := x)]
  {
    ns[k].SetBias(x);
    assert forall j | 0 <= j < |ns| :: NodesData(ns)[j] == data[k := data[k].(bias := x)][j];
  }

  // ----- The loops of the mutations -----

  /** `Connections.Exists(conn => conn.FromNodeId == from && conn.ToNodeId == to)`. */
  method HasConnection(cs: seq<ConnectionGene>, from: int, to: int) returns (b: bool)
    ensures b == Wires(ConnsData(cs), from, to)
  {
    var i := 0;
    while i < |cs|
      invariant i <= |cs|
      invariant forall j | 0 <= j < i :: cs[j].from != from || cs[j].to != to
    {
      if cs[i].from == from && cs[i].to == to {
        assert ConnsData(cs)[i].from == from && ConnsData(cs)[i].to == to;
        return true;
      }
      i := i + 1;
    }
    b := false;
  }

  /** The positions of the enabled connections, gathered in order. */
  method EnabledPositions(cs: seq<ConnectionGene>) returns (e: seq<nat>)
    ensures e == EnabledIndices(ConnsData(cs))
  {
    ghost var graph := ConnsData(cs);
    e := [];
    var i := 0;
    while i < |cs|
      invariant i <= |cs|
      invariant e == EnabledIndices(graph[..i])
    {
      assert graph[..i + 1][..i] == graph[..i];
      if cs[i].enabled {
        e := e + [i];
      }
      i := i + 1;
    }
    assert graph[..i] == graph;
  }

  /** `GetNextNodeId` over a list of node genes. */
  method NextNodeId(ns: seq<NodeGene>) returns (next: int)
    ensures next == NextId(NodeIds(NodesData(ns)))
  {
    var ids := seq(|ns|, i requires 0 <= i < |ns| => ns[i].id);
    assert ids == NodeIds(NodesData(ns));
    next := ScanNextId(ids);
  }

  /** `GetNextConnectionId` over a list of connection genes. */
  method NextInnovation(cs: seq<ConnectionGene>) returns (next: int)
    ensures next == NextId(Innovations(ConnsData(cs)))
  {
    var ids := seq(|cs|, i requires 0 <= i < |cs| => cs[i].innovation);
    assert ids == Innovations(ConnsData(cs));
    next := ScanNextId(ids);
  }

  /** The scan of `GetNextNodeId` and `GetNextConnectionId` over a list of ids. */
  method ScanNextId(ids: seq<int>) returns (next: int)
    ensures next == NextId(ids)
  {
    next := 0;
    var i := 0;
    while i < |ids|
      invariant i <= |ids|
      invariant next == NextId(ids[..i])
    {
      assert ids[..i + 1][..i] == ids[..i];
      if ids[i] >= next {
        next := ids[i] + 1;
      }
      i := i + 1;
    }
    assert ids[..i] == ids;
  }

  /** New genes with the states `CopyNodes` is given and value 0 (the `Copy` loop over nodes). */
  method CopyNodes(src: seq<NodeGene>) returns (copies: seq<NodeGene>)
    ensures NodesData(copies) == Cleared(NodesData(src))
    ensures Distinct(copies) && forall g | g in copies :: fresh(g)
  {
    ghost var data := NodesData(src);
    copies := [];
    var i := 0;
    while i < |src|
      invariant i <= |src| && NodesData(src) == data
      invariant NodesData(copies) == Cleared(data[..i])
      invariant Distinct(copies) && forall g | g in copies :: fresh(g)
    {
      var g := new NodeGene(src[i].id, src[i].kind, src[i].activation, src[i].response, src[i].bias);
      copies := copies + [g];
      i := i + 1;
    }
    assert data[..i] == data;
  }

  /** New genes with the states of `src` (the `Copy` loop over connections). */
  method CopyConnections(src: seq<ConnectionGene>) returns (copies: seq<ConnectionGene>)
    ensures ConnsData(copies) == ConnsData(src)
    ensures Distinct(copies) && forall g | g in copies :: fresh(g)
  {
    ghost var data := ConnsData(src);
    copies := [];
    var i := 0;
    while i < |src|
      invariant i <= |src| && ConnsData(src) == data
      invariant ConnsData(copies) == data[..i]
      invariant Distinct(copies) && forall g | g in copies :: fresh(g)
    {
      var g := new ConnectionGene(src[i].innovation, src[i].from, src[i].to, src[i].weight, src[i].enabled);
      copies := copies + [g];
      i := i + 1;
    }
    assert data[..i] == data;
  }

  // ----- The genome -----

  /** `Genome`: an Id, the node and connection gene lists, the input and output buffers and
      the seeded generator every draw comes from. */
  class Genome {
    var id: Guid
    var nodes: seq<NodeGene>
    var connections: seq<ConnectionGene>
    /** `_input`, which `GetInputArray()` hands out for callers to fill. */
    const input: array<real>
    const output: array<real>
    const random: Rng.Random

    ghost predicate Valid()
      reads this
    {
      random.Valid() && input != output && Distinct(nodes) && Distinct(connections)
    }

    /** The node genes' states, in list order. */
    function Nodes(): seq<NodeData>
      reads this, nodes
    {
      NodesData(nodes)
    }

    /** The connection genes' states, in list order. */
    function Connections(): seq<ConnData>
      reads this, connections
    {
      ConnsData(connections)
    }

    /** `new Genome(inputNodeCount, outputNodeCount, randomSeed)`: a new Id, a generator on
        the seed's stream, zeroed buffers of the two sizes and no genes. */
    constructor (ins: nat, outs: nat, stream: nat -> real, guids: GuidSource)
      requires Rng.IsSampleStream(stream)
      modifies guids
      ensures Valid() && fresh(random) && fresh(input) && fresh(output)
      ensures id != Empty && guids.WasIssued(id) && forall g | old(guids.WasIssued(g)) :: g != id
      ensures random.stream == stream && random.position == 0
      ensures input.Length == ins && output.Length == outs
      ensures (forall i | 0 <= i < ins :: input[i] == 0.0) && (forall i | 0 <= i < outs :: output[i] == 0.0)
      ensures nodes == [] && connections == []
    {
      var g := guids.NewGuid();
      id := g;
      random := new Rng.Random(stream);
      input := new real[ins](_ => 0.0);
      output := new real[outs](_ => 0.0);
      nodes := [];
      connections := [];
    }

    /** `InitializeRandom`: the input nodes and then the output nodes appended, numbered by
        the list length, and then one connection from each input index to each output index,
        two draws apiece. From empty lists this is the genome `InitialGenome` describes. */
    method InitializeRandom()
      requires Valid()
      modifies this`nodes, this`connections, random
      ensures Valid()
      ensures Nodes() == old(Nodes()) + Numbered(|old(nodes)|, input.Length, Input)
                                      + Numbered(|old(nodes)| + input.Length, output.Length, Output)
      ensures Connections() == old(Connections()) + Wiring(input.Length, input.Length, output.Length,
                                                           |old(connections)|, random.stream, old(random.position))
      ensures random.position == old(random.position) + 2 * (|connections| - |old(connections)|)
      ensures old(nodes) == [] && old(connections) == [] ==>
                OutputsLast(Nodes(), output.Length) && WellFormed(Nodes(), Connections())
    {
      ghost var n0, c0, start := Nodes(), Connections(), random.position;
      nodes := AppendLayers(nodes, input.Length, output.Length, n0);
      ghost var n1 := Nodes();
      connections := AppendWiring(connections, random, input.Length, output.Length, c0, start);
      assert Nodes() == n1;
      if |n0| == 0 && |c0| == 0 {
        InitializedFromEmpty(n0, c0, n1, Connections(), input.Length, output.Length, random.stream, start);
      }
    }

    /** `GetInputArray()`: the genome's own input buffer, which `FeedForward` loads the
        input nodes from; it is never the output buffer. */
    method GetInputArray() returns (r: array<real>)
      requires Valid()
      ensures r == input && r != output
    {
      r := input;
    }

    /** `FeedForward`: every value cleared, the inputs loaded, the nodes evaluated in list
        order and the output nodes' values written to `_output`, which is returned. */
    method FeedForward(curves: Curves) returns (r: array<real>, outcome: Outcome)
      requires Valid()
      modifies nodes, output
      ensures Valid() && r == output
      ensures Forwarded(Nodes(), output[..], outcome)
              == Forward(old(Nodes()), Connections(), input[..], old(output[..]), curves)
    {
      r := output;
      outcome := ForwardPass(nodes, connections, input, output, curves, Nodes(), Connections(), output[..]);
    }

    /** `Copy(neural)`: the Id of `parent` adopted and the gene lists cleared and refilled
        with new genes in the states of `parent`'s, values 0. When `parent` is this genome
        the lists it copies from have just been cleared, so both end empty. */
    method Copy(parent: Genome)
      requires Valid()
      modifies this`id, this`nodes, this`connections
      ensures Valid() && id == old(parent.id)
      ensures parent != this ==>
                Nodes() == Cleared(old(parent.Nodes())) && Connections() == old(parent.Connections())
      ensures parent == this ==> nodes == [] && connections == []
      ensures (forall g | g in nodes :: fresh(g)) && (forall g | g in connections :: fresh(g))
    {
      id := parent.id;
      nodes := [];
      connections := [];
      nodes := CopyNodes(parent.nodes);
      connections := CopyConnections(parent.connections);
    }

    /** `Breed`: not implemented; it always throws. */
    method Breed(x: Genome, y: Genome) returns (outcome: Outcome)
      ensures outcome == Thrown(NotImplemented)
    {
      outcome := Thrown(NotImplemented);
    }

    /** `GetNextNodeId`: one more than the largest node id, 0 without nodes. */
    method GetNextNodeId() returns (next: int)
      ensures next == NextId(NodeIds(Nodes()))
    {
      next := NextNodeId(nodes);
    }

    /** `GetNextConnectionId`: one more than the largest innovation number, 0 without
        connections. */
    method GetNextConnectionId() returns (next: int)
      ensures next == NextId(Innovations(Connections()))
    {
      next := NextInnovation(connections);
    }

    /** The genes are in the states `e` describes, `outcome` is its outcome and the generator
        has moved on by its draws from `start`. */
    ghost predicate Applied(e: Edit, outcome: Outcome, start: nat)
      reads this, nodes, connections, random
    {
      Nodes() == e.nodes && Connections() == e.conns && outcome == e.outcome && random.position == start + e.draws
    }

    /** `ModifyWeightsMutation`. */
    method ModifyWeightsMutation(factor: real) returns (outcome: Outcome)
      requires Valid()
      modifies connections, random
      ensures Valid()
      ensures Applied(ModifyWeight(old(Nodes()), old(Connections()), factor, random.stream, old(random.position)),
                      outcome, old(random.position))
    {
      outcome := ReweighOne(connections, random, factor, Nodes(), Connections());
    }

    /** `ModifyBiasMutation`. */
    method ModifyBiasMutation(factor: real) returns (outcome: Outcome)
      requires Valid()
      modifies nodes, random
      ensures Valid()
      ensures Applied(ModifyBias(old(Nodes()), old(Connections()), input.Length, factor, random.stream, old(random.position)),
                      outcome, old(random.position))
    {
      outcome := RebiasOne(nodes, random, input.Length, factor, Nodes(), Connections());
    }

    /** `AddNewConnectionMutation`. */
    method AddNewConnectionMutation(factor: real) returns (outcome: Outcome)
      requires Valid()
      modifies this`connections, random
      ensures Valid()
      ensures Applied(AddConnection(old(Nodes()), old(Connections()), output.Length, factor, random.stream, old(random.position)),
                      outcome, old(random.position))
    {
      ghost var ns, cs := Nodes(), Connections();
      var next := GetNextConnectionId();
      connections, outcome := AddConnectionTo(nodes, connections, random, output.Length, factor, next, ns, cs);
    }

    /** `AddNewNodeMutation` as intended (see `AddNode`): one enabled connection chosen with
        one draw is disabled and split by a new hidden node inserted before the output nodes;
        the second new connection is numbered after the first has been added. */
    method AddNewNodeMutation() returns (outcome: Outcome)
      requires Valid()
      modifies this`nodes, this`connections, connections, random
      ensures Valid()
      ensures Applied(AddNode(old(Nodes()), old(Connections()), output.Length, random.stream, old(random.position)),
                      outcome, old(random.position))
    {
      nodes, connections, outcome := AddNodeTo(nodes, connections, random, output.Length, Nodes(), Connections());
    }

    /** `Mutate(mutationFactor)`: a new Id, one draw and the mutation it selects. */
    method Mutate(factor: real, guids: GuidSource) returns (outcome: Outcome)
      requires Valid()
      modifies this`id, this`nodes, this`connections, nodes, connections, random, guids
      ensures Valid()
      ensures id != Empty && guids.WasIssued(id) && forall g | old(guids.WasIssued(g)) :: g != id
      ensures Applied(Mutation(old(Nodes()), old(Connections()), input.Length, output.Length, factor,
                               random.stream, old(random.position)),
                      outcome, old(random.position))
    {
      ghost var ns, cs, start := Nodes(), Connections(), random.position;
      id := guids.NewGuid();
      var mutationType := random.NextDouble();
      outcome := MutateBy(mutationType, factor, ns, cs, start);
    }

    /** The mutation `Mutate` selects by the draw `t`, made right after the genes had the
        states `ns` and `cs` and the generator stood at `start`. */
    method MutateBy(t: real, factor: real, ghost ns: seq<NodeData>, ghost cs: seq<ConnData>, ghost start: nat)
        returns (outcome: Outcome)
      requires Valid() && Nodes() == ns && Connections() == cs
      requires random.position == start + 1 && t == random.stream(start)
      modifies this`nodes, this`connections, nodes, connections, random
      ensures Valid()
      ensures Applied(Mutation(ns, cs, input.Length, output.Length, factor, random.stream, start), outcome, start)
    {
      MutationSelects(ns, cs, input.Length, output.Length, factor, random.stream, start);
      if t < 0.1 {
        outcome := AddNewNodeMutation();
      } else if t < 0.2 {
        outcome := AddNewConnectionMutation(factor);
      } else if t < 0.75 {
        outcome := ModifyWeightsMutation(factor);
      } else {
        outcome := ModifyBiasMutation(factor);
      }
    }
  }

  /** `new Genome(inputNodeCount, outputNodeCount, randomSeed)` for any counts: the Id is
      drawn first, and `new double[n]` throws `OverflowException` on a negative count, the
      input buffer's before the output buffer's; otherwise the genome is built as the
      constructor builds it. */
  method NewGenome(inputNodeCount: int, outputNodeCount: int, stream: nat -> real, guids: GuidSource)
      returns (r: Result<Genome>)
    requires Rng.IsSampleStream(stream)
    modifies guids
    ensures r.Throws? <==> inputNodeCount < 0 || outputNodeCount < 0
    ensures r.Throws? ==> r.error == Overflow && guids.issued == old(guids.issued) + 1
    ensures r.Ok? ==>
      && fresh(r.value) && r.value.Valid() && r.value.id != Empty && guids.WasIssued(r.value.id)
      && fresh(r.value.random) && fresh(r.value.input) && fresh(r.value.output)
      && (forall g | old(guids.WasIssued(g)) :: g != r.value.id)
      && r.value.random.stream == stream && r.value.random.position == 0
      && r.value.input.Length == inputNodeCount && r.value.output.Length == outputNodeCount
      && (forall i | 0 <= i < inputNodeCount :: r.value.input[i] == 0.0)
      && (forall i | 0 <= i < outputNodeCount :: r.value.output[i] == 0.0)
      && r.value.nodes == [] && r.value.connections == []
  {
    if inputNodeCount < 0 || outputNodeCount < 0 {
      var id := guids.NewGuid();
      return Throws(Overflow);
    }
    var g := new Genome(inputNodeCount, outputNodeCount, stream, guids);
    return Ok(g);
  }
}
