# EvolutionGame core in Dafny

EvolutionGame is a Unity neuroevolution simulation. Agents ("specimens") move over a
ground plane. Each one steers by a small neural network towards food, and scores 50
points for each item it eats. The engine core under `Assets/Scripts/Core` is modelled
here module by module:

- `GraphGenome` (`Core/Neural/Genome.cs`): the NEAT-style graph genome. Its node and
  connection genes are classes whose setters change fields in place. The gene lists are
  `seq` fields of the `Genome` class, and the input and output buffers are arrays. It
  covers the initial bipartite wiring, the index-order feed-forward pass, the deep copy,
  the always-throwing breed, the four mutations chosen by one draw, and the max+1 id
  scans.
- `DenseNetwork` (`Core/Neural/NeuralNetwork.cs`) and `LegacyNetwork`
  (`Core/NeuralNetwork.cs`): two revisions of a dense feed-forward network.
  - Both keep nested weight and bias sequences and an array of activation buffers, one per
    layer.
  - Both run index loops for initialisation, copy and mutation.
  - `DenseNetwork` also has mean-crossover breeding, a weight clamp and ReLU on the hidden
    layers.
  - `LegacyNetwork` has an identity activation and checks the size of the caller's input
    array.
  - What they share (the parameter shape, the draw order, the forward-pass function) is in
    `Layers`.
- `GenerationalSimulation` (`Core/Simulation.cs`): the generational scheduler.
  - It holds a population of specimens, each on its own map of food.
  - Every `generationLengthFrames` frames it does the following in order: it selects the
    top specimens (one per network, pooled with the previous top) and the bottom
    specimens; it ratchets the best score; it rebuilds the population slot by slot
    (elite copies, survivor copies, newcomers, offspring); and it reactivates the maps'
    food.
- `Specimens` (`Core/Units/Specimen.cs`): the specimen struct.
  - It ranks the nearest valid food (a stable sort on squared distance) and writes sight
    angles into the network's input buffer.
  - It moves by the network's output, then eats the nearest food within the consume radius.
- `Registry` (`Core/Singleton/Database.cs`, `Core/Units/Unit.cs`): the entity registry.
  - It has one keyed store per unit kind. A store rejects a duplicate add and an absent
    remove.
  - It keeps an event log per store, forwarded to the database.
  - It throws on the empty Guid.
  - Units are equal by their Guid.
- `ContinuousSimulation` (`Core/Singleton/Simulation.cs`): the open-ended tick.
  - It advances the frame and spawns the initial units on the first frame.
  - It updates the specimens and then the trees, drains the deferred actions in FIFO
    order, and ratchets the best score.
- `Trees` (`Core/Units/Tree.cs`): the tree's food-spawn schedule over `nextSpawn`.
- `GlobalExtensions` (`Core/Extensions/GlobalExtensions.cs`): in-place removal from a list,
  by predicate.
- `Comparers` (`Core/Extensions/EqualityComparers.cs`): the network-id comparer, and
  LINQ's `ToHashSet` with it.
- Support modules:
  - `Ordering`: LINQ's stable `OrderBy` and `Take`.
  - `Rng`: `System.Random` as a seeded sample stream.
  - `Ids`: `Guid.NewGuid` as a counter.
  - `Geometry`: vectors, rectangles and the uninterpreted trigonometry.
  - `Errors`: the .NET exceptions as values.

The modelling conventions are listed below.

- **Numbers.** `double` and `float` are `real`, and `int` and `long` are unbounded `int`.
- **Randomness.** A `System.Random` is a class over a fixed stream of samples in [0, 1),
  with a position that every draw advances. `Next(n)` is `floor(sample * n)`, and
  `Next(a, b)` is `a + floor(sample * (b - a))`. A negative range is an
  `ArgumentOutOfRange` result, as in .NET. `new Random(seed)` is a function from seeds to
  streams.
- **Guids.** `Guid.NewGuid()` hands out the next number of a counter. `Guid.Empty` is
  number 0.
- **Exceptions** become `Outcome` or `Result` values, and the state at the throw is stated.
- **`Parallel.For` and `Parallel.ForEach`** are sequential loops. Over a set, the order is
  left open.

## Model

| member | source | states |
|---|---|---|
| GraphGenome.Relu | Assets/Scripts/Core/Neural/Genome.cs:241 | `Math.Max(0, x)` is non-negative, at least `x`, and either `x` or 0 |
| GraphGenome.NodeGene.constructor | Assets/Scripts/Core/Neural/Genome.cs:229-237 | a new node gene has the given id, type, activation, response and bias, and value 0 |
| GraphGenome.NodeGene.Activate | Assets/Scripts/Core/Neural/Genome.cs:243-253 | only `Value` changes, to the node's activation function applied to the sum (identity for None, `max(0, x)` for ReLU) |
| GraphGenome.NodeGene.SetValue | Assets/Scripts/Core/Neural/Genome.cs:255-258 | only the value changes |
| GraphGenome.NodeGene.SetBias | Assets/Scripts/Core/Neural/Genome.cs:260-263 | only the bias changes |
| GraphGenome.NodeGene.SetActivationResponse | Assets/Scripts/Core/Neural/Genome.cs:265-268 | only the response changes |
| GraphGenome.ConnectionGene.constructor | Assets/Scripts/Core/Neural/Genome.cs:280-287 | a new connection gene holds exactly the given innovation, endpoints, weight and enabled flag |
| GraphGenome.ConnectionGene.SetWeight | Assets/Scripts/Core/Neural/Genome.cs:289-292 | only the weight changes |
| GraphGenome.ConnectionGene.SetIsEnabled | Assets/Scripts/Core/Neural/Genome.cs:294-297 | only the enabled flag changes |
| GraphGenome.Genome.constructor | Assets/Scripts/Core/Neural/Genome.cs:19-29 | for non-negative counts: a Guid never issued before; a generator on the seed's stream; zeroed input and output buffers of the given sizes; empty gene lists |
| GraphGenome.NewGenome | Assets/Scripts/Core/Neural/Genome.cs:19-29 | throws `Overflow` exactly when a node count is negative, after drawing the Id; otherwise a new genome with the new Id, a generator at the start of the seed's stream, new zeroed buffers of the two sizes and no genes, as the constructor builds it |
| GraphGenome.Genome.GetInputArray | Assets/Scripts/Core/Neural/Genome.cs:17 | the genome's own input buffer, never the output buffer |
| GraphGenome.NextId | Assets/Scripts/Core/Neural/Genome.cs:196-216 | the max+1 scan is never negative |
| GraphGenome.NextIdIsFresh | Assets/Scripts/Core/Neural/Genome.cs:196-216 | the next id exceeds every id in the list, and is either 0 or one more than an id in the list |
| GraphGenome.NextIdAfterAppend | Assets/Scripts/Core/Neural/Genome.cs:196-216 | appending the next id moves the next id on by exactly one |
| GraphGenome.ScanNextId | Assets/Scripts/Core/Neural/Genome.cs:198-204 | the loop computes `NextId` of the scanned ids |
| GraphGenome.Genome.GetNextNodeId | Assets/Scripts/Core/Neural/Genome.cs:196-205 | the next id of the node ids, strictly above each of them (`NextIdIsFresh`) |
| GraphGenome.Genome.GetNextConnectionId | Assets/Scripts/Core/Neural/Genome.cs:207-216 | the next id of the innovation numbers, strictly above each of them |
| GraphGenome.NextNodeId | Assets/Scripts/Core/Neural/Genome.cs:196-205 | the scan over node genes gives `NextId` of their ids |
| GraphGenome.NextInnovation | Assets/Scripts/Core/Neural/Genome.cs:207-216 | the scan over connection genes gives `NextId` of their innovation numbers |
| GraphGenome.WiringElements | Assets/Scripts/Core/Neural/Genome.cs:39-48 | the wiring of n input nodes has n·outs enabled connections; the k-th is numbered k0+k, goes from input k/outs to output ins+k%outs, and has a weight in [-1, 1) |
| GraphGenome.WiringPairsDistinct | Assets/Scripts/Core/Neural/Genome.cs:39-48 | no (input, output) pair is wired twice |
| GraphGenome.WiringCovers | Assets/Scripts/Core/Neural/Genome.cs:39-48 | every (input, output) pair is wired |
| GraphGenome.InitialGenome | Assets/Scripts/Core/Neural/Genome.cs:31-49 | from empty lists: node i has id i; nodes below `ins` are Input and the rest Output; exactly one enabled connection per (input, output) pair, numbered 0..ins·outs-1, with weights in [-1, 1); ids and innovations are distinct |
| GraphGenome.AppendNumbered | Assets/Scripts/Core/Neural/Genome.cs:33-37 | n node genes numbered by the list length are appended; the genes stay distinct objects |
| GraphGenome.AppendLayers | Assets/Scripts/Core/Neural/Genome.cs:33-37 | `ins` input nodes and then `outs` output nodes, numbered on from the list length |
| GraphGenome.AppendRow | Assets/Scripts/Core/Neural/Genome.cs:41-47 | one row of connections from input f to every output, two draws per output (the connect test, which always passes, and the weight) |
| GraphGenome.AppendWire | Assets/Scripts/Core/Neural/Genome.cs:43-46 | one connect test and one weight draw append exactly the described gene |
| GraphGenome.AppendWiring | Assets/Scripts/Core/Neural/Genome.cs:39-48 | the nested loops append `Wiring(ins, ...)` and draw two samples per connection |
| GraphGenome.Genome.InitializeRandom | Assets/Scripts/Core/Neural/Genome.cs:31-49 | the node lists and connection lists grow by exactly the numbered nodes and the wiring; on an empty genome the `InitialGenome` facts hold of the result |
| GraphGenome.Load | Assets/Scripts/Core/Neural/Genome.cs:56-57 | node i takes input i; an input buffer longer than the node list throws `ArgumentOutOfRange` |
| GraphGenome.FindIndex | Assets/Scripts/Core/Neural/Genome.cs:70 | the index of the first node with the id, or -1 when no node has it |
| GraphGenome.FindNode | Assets/Scripts/Core/Neural/Genome.cs:70 | `Nodes.Find` returns the first gene with the id, or null exactly when none has it |
| GraphGenome.FindIndexIsFirst | Assets/Scripts/Core/Neural/Genome.cs:70 | a node with the id and no earlier node with it is the one `Find` picks |
| GraphGenome.SumIgnoresDisabled | Assets/Scripts/Core/Neural/Genome.cs:64-74 | a node's weighted sum over all connections equals its sum over the enabled ones |
| GraphGenome.WeightedSum | Assets/Scripts/Core/Neural/Genome.cs:64-74 | the connection loop computes `SumOver`: the enabled connections into the node, summed in list order, throwing `NullReference` for a missing source node |
| GraphGenome.ThrowPersists | Assets/Scripts/Core/Neural/Genome.cs:64-74 | once a prefix of the connections makes the sum throw, the whole list throws the same |
| GraphGenome.EvaluateNode | Assets/Scripts/Core/Neural/Genome.cs:59-77 | one round of the node loop is `Step`: input nodes are skipped; any other node gets its activated sum |
| GraphGenome.Evaluate | Assets/Scripts/Core/Neural/Genome.cs:59-77 | the node loop is `Propagate`, in index order, so later nodes see earlier values |
| GraphGenome.PropagateChangesValuesOnly | Assets/Scripts/Core/Neural/Genome.cs:59-77 | the evaluation changes only values, and never an input node's value |
| GraphGenome.PropagateIgnoresDisabled | Assets/Scripts/Core/Neural/Genome.cs:59-77 | evaluating over all connections equals evaluating over the enabled ones |
| GraphGenome.ClearValues | Assets/Scripts/Core/Neural/Genome.cs:53-54 | every node's value becomes 0, and nothing else changes |
| GraphGenome.LoadInputs | Assets/Scripts/Core/Neural/Genome.cs:56-57 | the input loop is `Load`, including its throw |
| GraphGenome.OutputValuesOfPrefix | Assets/Scripts/Core/Neural/Genome.cs:79-86 | the output values of a prefix of the nodes are a prefix of the output values |
| GraphGenome.OutputSlot | Assets/Scripts/Core/Neural/Genome.cs:79-86 | output node i lands in the slot numbered by the output nodes before it |
| GraphGenome.Emit | Assets/Scripts/Core/Neural/Genome.cs:79-86 | output values fill the buffer from slot 0, and the other slots keep their contents; more outputs than slots throws `IndexOutOfRange` |
| GraphGenome.WriteOutputs | Assets/Scripts/Core/Neural/Genome.cs:79-86 | the output loop is `Emit` of the output nodes' values |
| GraphGenome.ForwardPass | Assets/Scripts/Core/Neural/Genome.cs:51-89 | clear, load, evaluate and write, composed as `Forward` |
| GraphGenome.ForwardFacts | Assets/Scripts/Core/Neural/Genome.cs:51-89 | the pass ignores disabled connections; input node i ends with input i (or 0 beyond the input); genes keep everything but their values; on completion output node i's value is in its slot of the buffer |
| GraphGenome.Genome.FeedForward | Assets/Scripts/Core/Neural/Genome.cs:51-89 | the nodes and the `_output` buffer end as `Forward` of the old state and input buffer; the returned array is `_output` itself |
| GraphGenome.CopyNodes | Assets/Scripts/Core/Neural/Genome.cs:99-105 | new, distinct node genes with the source states and value 0 |
| GraphGenome.CopyConnections | Assets/Scripts/Core/Neural/Genome.cs:107-113 | new, distinct connection genes with the source states |
| GraphGenome.Genome.Copy | Assets/Scripts/Core/Neural/Genome.cs:91-114 | the parent's Id is adopted; the node and connection states equal the parent's field by field, with every value 0; all genes are new objects; a self-copy ends with empty lists (the lists are cleared first) |
| GraphGenome.Genome.Breed | Assets/Scripts/Core/Neural/Genome.cs:116-119 | always throws `NotImplemented` |
| GraphGenome.Nudge | Assets/Scripts/Core/Neural/Genome.cs:175 | `(NextDouble()*2-1)*factor` lies in [-factor, factor) |
| GraphGenome.Endpoints | Assets/Scripts/Core/Neural/Genome.cs:165-166 | the two index draws give a source index strictly below a target index below the node count, or throw `ArgumentOutOfRange` |
| GraphGenome.DrawEndpoints | Assets/Scripts/Core/Neural/Genome.cs:165-166 | the draws are `Endpoints` of the generator's stream |
| GraphGenome.HasConnection | Assets/Scripts/Core/Neural/Genome.cs:171 | `Connections.Exists` is true iff some connection has those endpoints |
| GraphGenome.AppendConnection | Assets/Scripts/Core/Neural/Genome.cs:174-177 | appends exactly one enabled gene with the given innovation and a nudged weight |
| GraphGenome.AddConnectionFacts | Assets/Scripts/Core/Neural/Genome.cs:163-178 | it throws iff there are no two nodes to pick between. Nodes and existing connections never change. A pair already connected adds nothing. Otherwise exactly one enabled connection is appended between the drawn nodes (source listed first), with innovation `NextId` and weight within the factor. Innovations stay distinct |
| GraphGenome.AddConnectionTo | Assets/Scripts/Core/Neural/Genome.cs:163-178 | the method body makes the genes `AddConnection` describes |
| GraphGenome.Genome.AddNewConnectionMutation | Assets/Scripts/Core/Neural/Genome.cs:163-178 | the genes, the outcome and the draws are `AddConnection` of the old state |
| GraphGenome.WeightIndex | Assets/Scripts/Core/Neural/Genome.cs:182 | `Next(Count - 1)` is an index in the list, never the last of two or more |
| GraphGenome.ModifyWeightFacts | Assets/Scripts/Core/Neural/Genome.cs:180-186 | it throws iff there are no connections, and then changes nothing; otherwise exactly one connection's weight moves by at most the factor and nothing else changes |
| GraphGenome.ReweighAt | Assets/Scripts/Core/Neural/Genome.cs:185 | only connection k's weight changes |
| GraphGenome.ReweighOne | Assets/Scripts/Core/Neural/Genome.cs:180-186 | the method body makes the genes `ModifyWeight` describes |
| GraphGenome.Genome.ModifyWeightsMutation | Assets/Scripts/Core/Neural/Genome.cs:180-186 | the genes, the outcome and the draws are `ModifyWeight` of the old state |
| GraphGenome.BiasIndex | Assets/Scripts/Core/Neural/Genome.cs:190 | `Next(inputs, Count - 1)` is an index at or past the input count |
| GraphGenome.ModifyBiasFacts | Assets/Scripts/Core/Neural/Genome.cs:188-194 | it throws iff no node lies past the inputs, and then changes nothing; otherwise exactly one non-input node's bias moves by at most the factor and nothing else changes |
| GraphGenome.RebiasAt | Assets/Scripts/Core/Neural/Genome.cs:193 | only node k's bias changes |
| GraphGenome.RebiasOne | Assets/Scripts/Core/Neural/Genome.cs:188-194 | the method body makes the genes `ModifyBias` describes |
| GraphGenome.Genome.ModifyBiasMutation | Assets/Scripts/Core/Neural/Genome.cs:188-194 | the genes, the outcome and the draws are `ModifyBias` of the old state |
| GraphGenome.EnabledIndices | Assets/Scripts/Core/Neural/Genome.cs:143-146 | exactly the positions of the enabled connections |
| GraphGenome.EnabledPositions | Assets/Scripts/Core/Neural/Genome.cs:143-146 | the loop gathers `EnabledIndices` |
| GraphGenome.AsWrittenSplitRepeatsInnovation | Assets/Scripts/Core/Neural/Genome.cs:150-160 | as written, both new connections get the same innovation number, so innovations are no longer distinct |
| GraphGenome.AsWrittenDraw | Assets/Scripts/Core/Neural/Genome.cs:145 | `Next(Count - 1)` succeeds iff Count ≥ 1, and then never gives the last index of two or more |
| GraphGenome.AsWrittenSelectMissesLast | Assets/Scripts/Core/Neural/Genome.cs:143-146 | as written, with two or more connections, the loop never selects the last one |
| GraphGenome.AsWrittenSelectHangs | Assets/Scripts/Core/Neural/Genome.cs:143-146 | as written, if no connection but the last is enabled, no number of draws ends the loop |
| GraphGenome.AsWrittenSelectHangsOnTwo | Assets/Scripts/Core/Neural/Genome.cs:143-146 | concrete input: a disabled connection followed by an enabled one hangs the loop |
| GraphGenome.Pick | Assets/Scripts/Core/Neural/Genome.cs:143-146 | the corrected selection picks an enabled connection |
| GraphGenome.PickReachesEvery | Assets/Scripts/Core/Neural/Genome.cs:143-146 | every enabled connection, the last one included, is picked by some sample |
| GraphGenome.SplitFacts | Assets/Scripts/Core/Neural/Genome.cs:148-160 | the corrected split disables connection k. It inserts one fresh hidden node just before the outputs, which stay last. It appends from→new with weight 1 and new→to with the old weight. Ids and innovations stay distinct |
| GraphGenome.AddNodeFacts | Assets/Scripts/Core/Neural/Genome.cs:140-161 | (corrected add-node) with no connection the first `Next(-1)` throws `ArgumentOutOfRange` and nothing changes; with no enabled connection nothing changes; otherwise one draw, and exactly one previously enabled connection split as `SplitFacts` states |
| GraphGenome.SpliceShape | Assets/Scripts/Core/Neural/Genome.cs:154-160 | any completed splice has the shape `Spliced` describes |
| GraphGenome.InsertHidden | Assets/Scripts/Core/Neural/Genome.cs:158 | a fresh hidden node inserted at `Count - outputs` keeps the outputs last and the ids distinct |
| GraphGenome.AppendFresh | Assets/Scripts/Core/Neural/Genome.cs:159-160 | two connections numbered `NextId` and `NextId + 1` keep innovations distinct |
| GraphGenome.SplitConnection | Assets/Scripts/Core/Neural/Genome.cs:148-160 | the method steps make the genes of the corrected `Split` |
| GraphGenome.SpliceIn | Assets/Scripts/Core/Neural/Genome.cs:150-160 | after the disable: with fewer nodes than outputs the insert throws; otherwise the hidden node and the two connections are added |
| GraphGenome.SplitIds | Assets/Scripts/Core/Neural/Genome.cs:150-151 | (corrected add-node) the two scans after the disable give the next node id and the next innovation of the old genes |
| GraphGenome.DisableAt | Assets/Scripts/Core/Neural/Genome.cs:148 | `SetIsEnabled(false)` on connection k disables exactly that connection |
| GraphGenome.InsertHiddenNode | Assets/Scripts/Core/Neural/Genome.cs:154-158 | `Nodes.Insert` puts the hidden gene at the index and shifts the rest |
| GraphGenome.AppendThrough | Assets/Scripts/Core/Neural/Genome.cs:155-160 | appends from→new (weight 1) and new→to (old weight), numbered i1 and i1+1 |
| GraphGenome.NextInnovationAfter | Assets/Scripts/Core/Neural/Genome.cs:152 | the scan right after appending connection i1 gives i1+1 |
| GraphGenome.AppendGene | Assets/Scripts/Core/Neural/Genome.cs:159-160 | `Connections.Add` appends exactly the described enabled gene |
| GraphGenome.AddNodeTo | Assets/Scripts/Core/Neural/Genome.cs:140-161 | (corrected add-node) the method body makes the genes, the outcome and the draws `AddNode` describes, including the `ArgumentOutOfRange` throw on an empty connection list |
| GraphGenome.Genome.AddNewNodeMutation | Assets/Scripts/Core/Neural/Genome.cs:140-161 | the genes, the outcome and the draws are `AddNode` (the corrected add-node) of the old state; an empty connection list throws `ArgumentOutOfRange` with nothing changed |
| GraphGenome.AddNodeKeeps | Assets/Scripts/Core/Neural/Genome.cs:140-161 | (corrected add-node) add-node keeps outputs last, ids and innovations distinct, and existing endpoints and innovations |
| GraphGenome.AddConnectionKeeps | Assets/Scripts/Core/Neural/Genome.cs:163-178 | add-connection keeps the same |
| GraphGenome.ModifyWeightKeeps | Assets/Scripts/Core/Neural/Genome.cs:180-186 | modify-weight keeps the same |
| GraphGenome.ModifyBiasKeeps | Assets/Scripts/Core/Neural/Genome.cs:188-194 | modify-bias keeps the same |
| GraphGenome.MutationFacts | Assets/Scripts/Core/Neural/Genome.cs:121-138 | (corrected add-node) one draw picks the kind by thresholds 0.1 / 0.2 / 0.75. Below 0.1 (`AddsNode`): on no connection an `ArgumentOutOfRange` throw with nothing changed, otherwise completion with two connections and a node more, or nothing. Below 0.2: nodes kept, at most one connection more. Below 0.75: only weights change. Otherwise only biases. Every kind keeps `Keeps` |
| GraphGenome.MutationAddsNode | Assets/Scripts/Core/Neural/Genome.cs:127-128 | (corrected add-node) a draw below 0.1 adds one node and two connections, or nothing |
| GraphGenome.MutationAddsConnection | Assets/Scripts/Core/Neural/Genome.cs:130-131 | a draw in [0.1, 0.2) keeps the nodes and adds at most one connection |
| GraphGenome.MutationModifiesWeight | Assets/Scripts/Core/Neural/Genome.cs:133-134 | a draw in [0.2, 0.75) changes only connection weights |
| GraphGenome.MutationModifiesBias | Assets/Scripts/Core/Neural/Genome.cs:136-137 | a draw of 0.75 or more changes only node biases |
| GraphGenome.Genome.MutateBy | Assets/Scripts/Core/Neural/Genome.cs:127-137 | (corrected add-node) the branch on the draw applies the selected mutation's `Mutation` edit, its outcome included |
| GraphGenome.Genome.Mutate | Assets/Scripts/Core/Neural/Genome.cs:121-138 | (corrected add-node) a Guid never issued before, then one draw and the mutation it selects (`Mutation` of the old genes, throws included) |
| Layers.RowsDraws | Assets/Scripts/Core/Neural/NeuralNetwork.cs:46-60 | a loop of at least one row draws at least one row's samples |
| Layers.RowsDrawsGrow | Assets/Scripts/Core/Neural/NeuralNetwork.cs:46-60 | a later row's draws start after an earlier row's draws end |
| Layers.LayerStartMonotone | Assets/Scripts/Core/Neural/NeuralNetwork.cs:46-60 | later layers draw later |
| Layers.RowsAreDisjoint | Assets/Scripts/Core/Neural/NeuralNetwork.cs:46-60 | the draws of distinct rows of a pass never overlap, so each parameter has its own sample |
| Layers.CheckAllocation | Assets/Scripts/Core/Neural/NeuralNetwork.cs:36-42 | the allocations complete iff there is at least one layer and no size is negative (`Allocatable`); otherwise `OverflowException` |
| Layers.Clamp | Assets/Scripts/Core/Neural/NeuralNetwork.cs:98 | `Mathf.Clamp` lies in [lo, hi], is the value when inside, and is the nearer bound otherwise |
| Layers.Perturb | Assets/Scripts/Core/NeuralNetwork.cs:66-70 | `value + (r - 0.5) * factor` is within factor/2 of the value; factor 0 keeps it |
| Layers.PerturbBounds | Assets/Scripts/Core/NeuralNetwork.cs:66-70 | the same bounds, for the expression as written |
| Layers.Mean | Assets/Scripts/Core/Neural/NeuralNetwork.cs:105-124 | `(x + y) / 2` is equidistant from both and lies between them |
| Layers.ReLU | Assets/Scripts/Core/Neural/NeuralNetwork.cs:128 | `Math.Max(0, x)`: non-negative; x when x ≥ 0, else 0 |
| Layers.LayerOutput | Assets/Scripts/Core/Neural/NeuralNetwork.cs:151-158 | one neuron per weight row; rectified outputs are ≥ 0; unrectified outputs are `W·a + b` |
| Layers.Forward | Assets/Scripts/Core/Neural/NeuralNetwork.cs:144-163 | the activations of the first n layers: layer 0 is the input, and layer l has `sizes[l]` values |
| Layers.ForwardStep | Assets/Scripts/Core/Neural/NeuralNetwork.cs:144-163 | every layer after the first is the previous one pushed through its weights |
| Layers.Outputs | Assets/Scripts/Core/Neural/NeuralNetwork.cs:144-163 | one activation vector per layer |
| Layers.HiddenLayersAreRectified | Assets/Scripts/Core/Neural/NeuralNetwork.cs:130-137 | with ReLU on hidden layers, every hidden activation is ≥ 0, and the output layer is affine (identity activation) |
| Layers.LayersAreAffine | Assets/Scripts/Core/NeuralNetwork.cs:82-87 | with the identity activation, every layer is `W·a + b` of the one before it |
| DenseNetwork.MutatedWeight | Assets/Scripts/Core/Neural/NeuralNetwork.cs:98 | the mutated weight lies in [-1, 1], and is the plain perturbation when that stays inside |
| DenseNetwork.InitializeRow | Assets/Scripts/Core/Neural/NeuralNetwork.cs:50-58 | one bias draw, then one draw per weight, each mapped onto [-1, 1) |
| DenseNetwork.InitializeLayer | Assets/Scripts/Core/Neural/NeuralNetwork.cs:48-59 | the neurons of a layer, drawn row after row |
| DenseNetwork.InitializeNextLayer | Assets/Scripts/Core/Neural/NeuralNetwork.cs:46-60 | one more layer, drawn where the previous layer's draws ended |
| DenseNetwork.PrefixShaped | Assets/Scripts/Core/Neural/NeuralNetwork.cs:36-50 | once every weight layer is drawn, weights and biases have the shape the allocations give |
| DenseNetwork.InitializeParameters | Assets/Scripts/Core/Neural/NeuralNetwork.cs:34-61 | the weights and biases have the shape `layerSizes` gives, each layer drawn in source order; one zeroed, distinct activation buffer per layer |
| DenseNetwork.InitializedValuesAreSigned | Assets/Scripts/Core/Neural/NeuralNetwork.cs:52-56 | every initial weight and bias lies in [-1, 1) |
| DenseNetwork.NeuralNetwork.constructor | Assets/Scripts/Core/Neural/NeuralNetwork.cs:22-32 | for sizes that allocate: a fresh Id, a generator on the seed's stream, and `InitializeParameters`' layers and buffers |
| DenseNetwork.Create | Assets/Scripts/Core/Neural/NeuralNetwork.cs:22-40 | throws `Overflow` exactly when the sizes are empty or one is negative, after drawing the Id; otherwise a network with the new Id, the given sizes, initialised layers and new activation buffers, as the constructor builds it |
| DenseNetwork.CopyRow | Assets/Scripts/Core/Neural/NeuralNetwork.cs:76-79 | the row becomes the parent's |
| DenseNetwork.CopyLayer | Assets/Scripts/Core/Neural/NeuralNetwork.cs:71-80 | the layer becomes the parent's |
| DenseNetwork.NeuralNetwork.Copy | Assets/Scripts/Core/Neural/NeuralNetwork.cs:63-82 | the parent's Id, and every weight and bias equal to the parent's |
| DenseNetwork.MutateRow | Assets/Scripts/Core/Neural/NeuralNetwork.cs:92-100 | the bias is perturbed (unclamped) and each weight is perturbed and then clamped, each with its own draw |
| DenseNetwork.MutateLayer | Assets/Scripts/Core/Neural/NeuralNetwork.cs:90-101 | every neuron of the layer is mutated in turn |
| DenseNetwork.MutateParameters | Assets/Scripts/Core/Neural/NeuralNetwork.cs:88-102 | every layer is mutated in turn, each drawing where the previous stopped; the shape is unchanged |
| DenseNetwork.MutatedValuesAreBounded | Assets/Scripts/Core/Neural/NeuralNetwork.cs:94-98 | after `Mutate` every weight lies in [-1, 1] and every bias within factor/2 of its old value |
| DenseNetwork.ZeroMutationKeepsLayer | Assets/Scripts/Core/Neural/NeuralNetwork.cs:84-103 | factor 0 applied to weights in [-1, 1] changes nothing |
| DenseNetwork.NeuralNetwork.Mutate | Assets/Scripts/Core/Neural/NeuralNetwork.cs:84-103 | a fresh Id; the layers are `MutatedLayers` of the old layers, with one draw per parameter |
| DenseNetwork.BreedRow | Assets/Scripts/Core/Neural/NeuralNetwork.cs:118-121 | each weight is the mean of the parents' weights |
| DenseNetwork.BreedLayer | Assets/Scripts/Core/Neural/NeuralNetwork.cs:113-122 | each bias and weight of the layer is the parents' mean |
| DenseNetwork.BreedParameters | Assets/Scripts/Core/Neural/NeuralNetwork.cs:105-124 | every layer is the element-wise mean of the parents' layers |
| DenseNetwork.MeanLayerIsSymmetric | Assets/Scripts/Core/Neural/NeuralNetwork.cs:105-124 | the crossover is symmetric in the two parents |
| DenseNetwork.SelfMeanLayerIsCopy | Assets/Scripts/Core/Neural/NeuralNetwork.cs:105-124 | breeding a layer with itself copies it |
| DenseNetwork.NeuralNetwork.Breed | Assets/Scripts/Core/Neural/NeuralNetwork.cs:105-124 | a fresh Id, and every weight and bias the mean of the two parents' values at that position |
| DenseNetwork.NeuralNetwork.ApplyActivationFunction | Assets/Scripts/Core/Neural/NeuralNetwork.cs:130-137 | the identity on the output layer, and ReLU (≥ 0) on every other layer |
| DenseNetwork.NeuralNetwork.GetInputArray | Assets/Scripts/Core/Neural/NeuralNetwork.cs:139-142 | the network's own `_activations[0]` buffer, which `FeedForward` never writes |
| DenseNetwork.NeuralNetwork.ComputeLayer | Assets/Scripts/Core/Neural/NeuralNetwork.cs:149-160 | the layer's buffer becomes `LayerOutput` of the previous layer |
| DenseNetwork.NeuralNetwork.FeedForward | Assets/Scripts/Core/Neural/NeuralNetwork.cs:144-163 | each layer after the input is `Outputs` of the input buffer, ReLU on hidden layers; the result is the network's own last buffer |
| LegacyNetwork.Centered | Assets/Scripts/Core/NeuralNetwork.cs:46 | `NextDouble() - 0.5` lies in [-0.5, 0.5) |
| LegacyNetwork.InitializeRow | Assets/Scripts/Core/NeuralNetwork.cs:40-48 | bias 0, then one centred draw per weight |
| LegacyNetwork.InitializeLayer | Assets/Scripts/Core/NeuralNetwork.cs:38-49 | the neurons of a layer, drawn row after row |
| LegacyNetwork.InitializeNextLayer | Assets/Scripts/Core/NeuralNetwork.cs:36-50 | one more layer, drawn where the previous layer's draws ended |
| LegacyNetwork.InitializeParameters | Assets/Scripts/Core/NeuralNetwork.cs:24-51 | the shape `layerSizes` gives, each layer built by `CenteredLayer`; one distinct buffer per layer |
| LegacyNetwork.CenteredValuesAreSmall | Assets/Scripts/Core/NeuralNetwork.cs:42-46 | every initial bias is 0 and every weight lies in [-0.5, 0.5) |
| LegacyNetwork.NeuralNetwork.constructor | Assets/Scripts/Core/NeuralNetwork.cs:14-22 | for sizes that allocate: a generator on the seed's stream, and `InitializeParameters`' layers and buffers |
| LegacyNetwork.Create | Assets/Scripts/Core/NeuralNetwork.cs:14-31 | throws `Overflow` exactly when the sizes are empty or one is negative; otherwise a network with the given sizes, centred layers and new activation buffers, as the constructor builds it |
| LegacyNetwork.PerturbRow | Assets/Scripts/Core/NeuralNetwork.cs:64-72 | the bias and each weight become the parent's value plus `(r - 0.5) * factor`, each with its own draw |
| LegacyNetwork.PerturbLayer | Assets/Scripts/Core/NeuralNetwork.cs:62-73 | every neuron of the layer is perturbed from the parent's |
| LegacyNetwork.PerturbParameters | Assets/Scripts/Core/NeuralNetwork.cs:58-75 | every layer is perturbed from the parent's, each drawing where the previous stopped |
| LegacyNetwork.PerturbedValuesStayNearParent | Assets/Scripts/Core/NeuralNetwork.cs:58-75 | every parameter lies within factor/2 of the parent's, unclamped |
| LegacyNetwork.ZeroPerturbationCopies | Assets/Scripts/Core/NeuralNetwork.cs:53-56 | factor 0 makes the layer exactly the parent's |
| LegacyNetwork.NeuralNetwork.Mutate | Assets/Scripts/Core/NeuralNetwork.cs:58-75 | every weight and bias becomes the parent's plus its own draw's step; the buffers are unchanged |
| LegacyNetwork.NeuralNetwork.Copy | Assets/Scripts/Core/NeuralNetwork.cs:53-56 | `Mutate(parent, 0)`: every weight and bias equals the parent's exactly, and one draw per parameter is still made |
| LegacyNetwork.NeuralNetwork.ApplyActivationFunction | Assets/Scripts/Core/NeuralNetwork.cs:82-87 | the identity |
| LegacyNetwork.NeuralNetwork.ComputeLayer | Assets/Scripts/Core/NeuralNetwork.cs:104-117 | when the previous layer's buffer is not this layer's own, the layer's buffer becomes `W·a + b` of the previous layer |
| LegacyNetwork.NeuralNetwork.FeedForward | Assets/Scripts/Core/NeuralNetwork.cs:89-120 | an input of the wrong length throws `Argument` with the buffers unchanged; otherwise `activations[0]` becomes the caller's array and, when that array is none of the network's later buffers (as for the one caller, `Assets/Scripts/Specimen.cs:88`), every later layer is the affine `Outputs` of it; the parameters never change |
| Ordering.Insert | Assets/Scripts/Core/Simulation.cs:124-127 | inserting into a sorted sequence keeps it sorted and adds exactly the entry |
| Ordering.Sort | Assets/Scripts/Core/Simulation.cs:124-127 | the stable sort is a permutation in (key, position) order |
| Ordering.Take | Assets/Scripts/Core/Simulation.cs:127 | `Take(n)` is the first min(n, length) elements |
| Ordering.SortFirstIsLeast | Assets/Scripts/Core/Simulation.cs:124-127 | the first sorted entry precedes every entry |
| Ordering.SortedPermutationsAreEqual | Assets/Scripts/Core/Simulation.cs:124-127 | sorting by (key, position) has one answer |
| Ordering.TakeSortedIsLeast | Assets/Scripts/Core/Simulation.cs:124-127 | an entry left out by `Take` is preceded by every taken entry; a short result holds every entry |
| Ordering.DistinctTagsOccurOnce | Assets/Scripts/Core/Simulation.cs:124-127 | an entry of a sequence with distinct positions occurs at most once |
| Ordering.SortKeepsTagsDistinct | Assets/Scripts/Core/Simulation.cs:124-127 | sorting keeps positions distinct |
| Comparers.SameIgnoresItem | Assets/Scripts/Core/Extensions/EqualityComparers.cs:5-8 | two pairs are equal iff their network ids are equal, whatever their specimens |
| Comparers.SameIsEquivalence | Assets/Scripts/Core/Extensions/EqualityComparers.cs:5-8 | the comparer is reflexive, symmetric and transitive |
| Comparers.SameHashCode | Assets/Scripts/Core/Extensions/EqualityComparers.cs:10-13 | equal pairs have equal hash codes |
| Comparers.AddAll | Assets/Scripts/Core/Extensions/EqualityComparers.cs:5-13 | adding pairs to a hash set never yields more pairs than were added |
| Comparers.ToHashSet | Assets/Scripts/Core/Extensions/EqualityComparers.cs:5-13 | the set never holds more pairs than the input |
| Comparers.AddAllIsDistinct | Assets/Scripts/Core/Extensions/EqualityComparers.cs:5-13 | the added pairs have distinct networks, none already in the set |
| Comparers.AddAllIsFromInput | Assets/Scripts/Core/Extensions/EqualityComparers.cs:5-13 | every added pair comes from the input |
| Comparers.AddAllCoversInput | Assets/Scripts/Core/Extensions/EqualityComparers.cs:5-13 | exactly the input's networks not already present are added |
| Comparers.AddAllKeepsFirst | Assets/Scripts/Core/Extensions/EqualityComparers.cs:5-13 | the pair kept for a network is its first occurrence |
| Comparers.ToHashSetKeepsFirstOfEachNetwork | Assets/Scripts/Core/Extensions/EqualityComparers.cs:5-13 | at most one pair per network survives: exactly the input's networks, each by its first pair |
| Comparers.AddAllOfDistinct | Assets/Scripts/Core/Extensions/EqualityComparers.cs:5-13 | an input whose networks are distinct and new passes through unchanged |
| Comparers.ToHashSetOfDistinct | Assets/Scripts/Core/Extensions/EqualityComparers.cs:5-13 | on distinct networks, `ToHashSet` is the identity |
| GlobalExtensions.List.constructor | Assets/Scripts/Core/Extensions/GlobalExtensions.cs:6 | the list holds the given items |
| GlobalExtensions.List.RemoveAt | Assets/Scripts/Core/Extensions/GlobalExtensions.cs:11 | removes exactly the element at the index |
| GlobalExtensions.Remove | Assets/Scripts/Core/Extensions/GlobalExtensions.cs:6-13 | the backwards `RemoveAt` loop leaves the old list filtered by "not predicate" |
| GlobalExtensions.WithoutNoneMatch | Assets/Scripts/Core/Extensions/GlobalExtensions.cs:8-12 | no remaining element satisfies the predicate |
| GlobalExtensions.WithoutLength | Assets/Scripts/Core/Extensions/GlobalExtensions.cs:8-12 | the new length is the old length minus the number of matches |
| GlobalExtensions.WithoutMultiplicity | Assets/Scripts/Core/Extensions/GlobalExtensions.cs:6-13 | a non-matching element keeps all its copies, and a matching one keeps none |
| GlobalExtensions.WithoutIdempotent | Assets/Scripts/Core/Extensions/GlobalExtensions.cs:6-13 | removing twice gives the same list as removing once |
| Ids.GuidSource.NewGuid | Assets/Scripts/Core/Units/Unit.cs:15 | a Guid that is not `Guid.Empty` and was never issued before |
| Rng.Below | Assets/Scripts/Core/Neural/Genome.cs:182 | the integer for range [0, n) lies in it (0 when n is 0) |
| Rng.Between | Assets/Scripts/Core/Units/Tree.cs:28 | the integer for range [lo, hi) lies in it (lo when lo = hi) |
| Rng.Signed | Assets/Scripts/Core/Neural/Genome.cs:45 | `NextDouble() * 2 - 1` lies in [-1, 1) |
| Rng.Random.constructor | Assets/Scripts/Core/Units/Tree.cs:33 | `new Random(seed)` stands at the start of the seed's sample stream |
| Rng.Random.NextDouble | Assets/Scripts/Core/Neural/NeuralNetwork.cs:52 | the next sample, in [0, 1); one draw |
| Rng.Random.Next | Assets/Scripts/Core/Neural/Genome.cs:182 | a negative bound throws `ArgumentOutOfRange` without drawing; otherwise `Below` of the next sample |
| Rng.Random.NextBetween | Assets/Scripts/Core/Units/Tree.cs:28 | min > max throws `ArgumentOutOfRange` without drawing; otherwise `Between` of the next sample |
| Rng.Random.NextInt | Assets/Scripts/Core/Simulation.cs:219 | a non-negative integer below int.MaxValue |
| Geometry.PositionWithinRectAcross | Assets/Scripts/Core/Extensions/Utils.cs:30-33 | a position drawn within a rectangle is on the ground and within its width |
| Geometry.PositionWithinRectAlong | Assets/Scripts/Core/Extensions/Utils.cs:30-33 | ... and within its depth |
| Geometry.ScaledSampleBounds | Assets/Scripts/Core/Extensions/Utils.cs:30-33 | a sample in [0, 1) scaled by a non-negative length lies in [0, length] |
| Geometry.PositionAround | Assets/Scripts/Core/Extensions/Utils.cs:35-44 | a position drawn around a point is on the ground |
| Geometry.PositionAroundIsWithinRadius | Assets/Scripts/Core/Extensions/Utils.cs:35-44 | it lies within the radius of a point on the ground |
| Registry.Unit.constructor | Assets/Scripts/Core/Units/Unit.cs:13-19 | a fresh Guid, with the kind's initial values. With `addToDatabase` the unit is registered in its kind's store and valid; without it the unit is unregistered and not valid |
| Registry.Unit.Activate | Assets/Scripts/Core/Units/Unit.cs:27-31 | registers the unit and sets `Valid`; the empty Guid throws `InvalidOperation` with nothing changed; no other field changes |
| Registry.Unit.Destroy | Assets/Scripts/Core/Units/Unit.cs:21-25 | unregisters the unit and clears `Valid`; the empty Guid throws with nothing changed |
| Registry.UnitEqualityIsEquivalence | Assets/Scripts/Core/Units/Unit.cs:33-35 | units are equal iff their Guids are equal; this is an equivalence, and equal units hash alike |
| Registry.ObjectDatabase.constructor | Assets/Scripts/Core/Singleton/Database.cs:10-14 | an empty store with no events |
| Registry.ObjectDatabase.Add | Assets/Scripts/Core/Singleton/Database.cs:16-29 | true iff the Guid was absent; then exactly that key is added with one `Added` event; a duplicate changes nothing and raises nothing |
| Registry.ObjectDatabase.Remove | Assets/Scripts/Core/Singleton/Database.cs:31-44 | true iff the Guid was present; then exactly that key is deleted with one `Removed` event; an absent Guid changes nothing |
| Registry.ObjectDatabase.Values | Assets/Scripts/Core/Singleton/Database.cs:46-47 | the enumeration yields exactly the stored units |
| Registry.AddThenRemoveRestores | Assets/Scripts/Core/Singleton/Database.cs:16-44 | adding a new unit and then removing it restores the store |
| Registry.Snapshot.With | Assets/Scripts/Core/Singleton/Database.cs:83-91 | replacing one kind's map leaves every other kind's map as it was |
| Registry.Snapshot.FreshIdIsAbsent | Assets/Scripts/Core/Singleton/Database.cs:20-21 | a Guid above every issued one is in no store, so a new unit is never a duplicate |
| Registry.Snapshot.RegisterKeepsIds | Assets/Scripts/Core/Singleton/Database.cs:24-27 | storing an issued Guid keeps every stored Guid issued |
| Registry.Database.constructor | Assets/Scripts/Core/Singleton/Database.cs:63-76 | five empty stores and empty `UnitAdded` / `UnitRemoved` logs |
| Registry.Database.RegisteredAddsOne | Assets/Scripts/Core/Singleton/Database.cs:83-91 | registering adds one entry to the unit's own store and touches no other store |
| Registry.Database.Add | Assets/Scripts/Core/Singleton/Database.cs:78-92 | the empty Guid throws `InvalidOperation`. Otherwise the result is true iff the kind is known and the Guid absent. Then the unit goes to its own kind's store only, and the store's `Added` and the database's `UnitAdded` each gain it once. Otherwise nothing changes |
| Registry.Database.Remove | Assets/Scripts/Core/Singleton/Database.cs:94-108 | the same for removal, with `Removed` forwarded as `UnitRemoved` |
| Specimens.NewFood | Assets/Scripts/Core/Simulation.cs:236 | new food is valid and has the given id and position |
| Specimens.DestroyFood | Assets/Scripts/Core/Simulation.cs:236 | only validity changes, to false |
| Specimens.ReactivateFood | Assets/Scripts/Core/Simulation.cs:207 | only validity changes, to true |
| Specimens.Map.constructor | Assets/Scripts/Core/Simulation.cs:236-243 | the map holds the given food array |
| Specimens.NewSpecimen | Assets/Scripts/Core/Units/Specimen.cs:33-44 | valid, with the given id, score 0, the origin, no network, and the given settings and map |
| Specimens.Destroy | Assets/Scripts/Core/Units/Specimen.cs:132-135 | `Valid` becomes false and nothing else changes |
| Specimens.Reactivate | Assets/Scripts/Core/Units/Specimen.cs:137-140 | `Valid` becomes true and nothing else changes |
| Specimens.ReactivateUndoesDestroy | Assets/Scripts/Core/Units/Specimen.cs:132-140 | reactivating a destroyed valid specimen gives it back |
| Specimens.InitializeRandom | Assets/Scripts/Core/Units/Specimen.cs:46-49 | a new network of the settings' layer sizes on the seed's stream; nothing else changes |
| Specimens.Copy | Assets/Scripts/Core/Units/Specimen.cs:51-55 | a new network whose Id, weights and biases equal the parent's, whose generator is `Random(0)`'s, past the draws of its initialisation |
| Specimens.Breed | Assets/Scripts/Core/Units/Specimen.cs:62-66 | a new network whose layers are the element-wise mean of the two parents' layers, with a fresh Id and the generator of `Random(0)` past the draws of its initialisation |
| Specimens.Mutate | Assets/Scripts/Core/Units/Specimen.cs:57-60 | the network mutates by the settings' factor and gets a fresh Id |
| Specimens.Candidates | Assets/Scripts/Core/Units/Specimen.cs:74-76 | exactly the valid food, each entry tagged with its map index, in map order |
| Specimens.Nearest | Assets/Scripts/Core/Units/Specimen.cs:74-78 | at most `count` entries, each a valid food of the map |
| Specimens.NearestAreClosest | Assets/Scripts/Core/Units/Specimen.cs:74-78 | the ranking is in (squared distance, map order) order; leaving out a valid food means every ranked one is no farther; a short ranking holds every valid food |
| Specimens.ConsumeTarget | Assets/Scripts/Core/Units/Specimen.cs:80-85 | the first-ranked food and its index, or `default` (index 0) when nothing is in sight |
| Specimens.TargetIsNearest | Assets/Scripts/Core/Units/Specimen.cs:80-99 | with one input slot or more, the target is a valid food that no valid food is nearer than |
| Specimens.EmptySightTargetsOrigin | Assets/Scripts/Core/Units/Specimen.cs:80-85 | with no valid food, the target is the default food: index 0 at the origin |
| Specimens.NoValidFoodNoCandidates | Assets/Scripts/Core/Units/Specimen.cs:74-76 | no valid food means no candidates |
| Specimens.Sighted | Assets/Scripts/Core/Units/Specimen.cs:82-88 | slot k holds the angle to the k-th nearest food, and slots past the ranking are unchanged |
| Specimens.See | Assets/Scripts/Core/Units/Specimen.cs:80-88 | the sight loop writes `Sighted` into the input array and returns `ConsumeTarget` |
| Specimens.ConsumeFood | Assets/Scripts/Core/Units/Specimen.cs:123-130 | within the consume radius: that food index is destroyed and the score grows by exactly 50. Otherwise nothing changes. An index outside the map throws `IndexOutOfRange` |
| Specimens.Moved | Assets/Scripts/Core/Units/Specimen.cs:92-97 | only the position changes, by one step of `moveSpeed` in the angle's direction |
| Specimens.MoveAndConsume | Assets/Scripts/Core/Units/Specimen.cs:97-99 | move, then `ConsumeFood`, as `Eaten` describes |
| Specimens.CustomUpdate | Assets/Scripts/Core/Units/Specimen.cs:68-100 | the input gets `Sighted` and the network's layers get `Outputs` of it. The specimen then moves by `outputs[0] * 360` and tries to eat the nearest valid food. An empty output layer throws before the move |
| Specimens.CustomUpdateSimple | Assets/Scripts/Core/Units/Specimen.cs:102-121 | with no valid food `First()` throws `InvalidOperation` and nothing changes; otherwise it heads for the nearest valid food and tries to eat it |
| GenerationalSimulation.CachedFood | Assets/Scripts/Core/Simulation.cs:229-237 | `foodCount` cached food items |
| GenerationalSimulation.CachedFoodLiesInSpawnArea | Assets/Scripts/Core/Simulation.cs:229-237 | cached item j is valid, has id j, and lies on the ground inside the spawn area |
| GenerationalSimulation.CopyFood | Assets/Scripts/Core/Simulation.cs:239-243 | a new array holding the cached food |
| GenerationalSimulation.GenerateMaps | Assets/Scripts/Core/Simulation.cs:225-245 | `specimenCount` maps, each with its own new array equal to the same `foodCount` cached items at index j; two draws per item |
| GenerationalSimulation.ReactivatedPrefix | Assets/Scripts/Core/Simulation.cs:205-209 | the first n items reactivated, and the rest unchanged |
| GenerationalSimulation.ReactivationRestoresMap | Assets/Scripts/Core/Simulation.cs:201-211 | eating only destroys food, so reactivating every item restores the generated map |
| GenerationalSimulation.ReactivateFirst | Assets/Scripts/Core/Simulation.cs:205-209 | one map's first n items are reactivated |
| GenerationalSimulation.ResetMaps | Assets/Scripts/Core/Simulation.cs:201-211 | every map gets its first `foodCount` items reactivated |
| GenerationalSimulation.Simulation.ResetMapState | Assets/Scripts/Core/Simulation.cs:201-211 | only the maps' food changes, to `ReactivatedPrefix(old, foodCount)` |
| GenerationalSimulation.KeyPool | Assets/Scripts/Core/Simulation.cs:119-122 | the pool paired with network ids; a specimen without a network throws `NullReference` |
| GenerationalSimulation.Items | Assets/Scripts/Core/Simulation.cs:128 | the specimens of the pairs, in order |
| GenerationalSimulation.ScoreEntries | Assets/Scripts/Core/Simulation.cs:124-139 | one (score, position) entry per pool member, with the score negated for descending order |
| GenerationalSimulation.Pick | Assets/Scripts/Core/Simulation.cs:124-128 | the elements the order names, in that order |
| GenerationalSimulation.Ranked | Assets/Scripts/Core/Simulation.cs:124-140 | `OrderBy` then `Take`: min(count, length) entries of the pool |
| GenerationalSimulation.RankedAreBest | Assets/Scripts/Core/Simulation.cs:124-140 | the ranking is in stable score order, names each position at most once, and a member it leaves out ranks after every member it takes |
| GenerationalSimulation.TopAreDistinct | Assets/Scripts/Core/Simulation.cs:115-130 | the top selection holds no two pairs of one network, comes from the pool, and is in descending score order |
| GenerationalSimulation.TopAreBest | Assets/Scripts/Core/Simulation.cs:115-130 | a network's first pair that is left out scores no more than any selected pair |
| GenerationalSimulation.TopAreComplete | Assets/Scripts/Core/Simulation.cs:115-130 | a selection shorter than the count holds every network of the pool |
| GenerationalSimulation.BottomAreWorst | Assets/Scripts/Core/Simulation.cs:132-143 | min(count, length) distinct members of the population in ascending score order; any member left out scores at least as much as every selected one |
| GenerationalSimulation.SelectedFromPool | Assets/Scripts/Core/Simulation.cs:115-130 | the top selection's specimens come from the pool, so their networks are ones already known |
| GenerationalSimulation.SelectedFromPopulation | Assets/Scripts/Core/Simulation.cs:132-143 | the bottom selection's specimens come from the population |
| GenerationalSimulation.WriteFront | Assets/Scripts/Core/Simulation.cs:128-142 | the selection is written to the front of the array, and the rest keeps what it held |
| GenerationalSimulation.Simulation.SelectTopSpecimen | Assets/Scripts/Core/Simulation.cs:115-130 | the pool is `Specimen`, plus `TopSpecimen` when `Generation > 1`. A pool member without a network throws with nothing changed. Otherwise `TopSpecimen` starts with the selection. Nothing else changes |
| GenerationalSimulation.Simulation.SelectBottomSpecimen | Assets/Scripts/Core/Simulation.cs:132-143 | `BottomSpecimen` starts with the lowest-scoring specimens of the current population, and nothing else changes |
| GenerationalSimulation.FirstScored | Assets/Scripts/Core/Simulation.cs:149 | the first top specimen whose id is not 10; throws `InvalidOperation` iff there is none |
| GenerationalSimulation.Ratchet | Assets/Scripts/Core/Simulation.cs:147-153 | `MaxScore` never decreases, and changes only to the first scored top specimen's score when strictly greater; the throw of `First()` propagates |
| GenerationalSimulation.Simulation.SaveTopSpecimen | Assets/Scripts/Core/Simulation.cs:145-153 | `MaxScore` becomes `Ratchet` of the old value, and nothing else changes |
| GenerationalSimulation.RoleOf | Assets/Scripts/Core/Simulation.cs:179-195 | slot i's role: `[0,K)` elite i, `[K,K+M)` survivor i%M, `[K+M,K+M+R)` newcomer, the rest offspring of two top indices below K. `i % K` with K = 0 throws `DivideByZero` exactly on the offspring slots |
| GenerationalSimulation.SurvivorsCoverBottom | Assets/Scripts/Core/Simulation.cs:183-184 | the survivor slots copy every bottom specimen exactly once |
| GenerationalSimulation.SlotWithResidue | Assets/Scripts/Core/Simulation.cs:183-184 | the survivor slot with a given remainder exists |
| GenerationalSimulation.NewcomersDrawInOrder | Assets/Scripts/Core/Simulation.cs:186-187 | successive newcomer slots take successive draws |
| GenerationalSimulation.DrawsBefore | Assets/Scripts/Core/Simulation.cs:186-187 | the draws made before slot i number at most R |
| GenerationalSimulation.NewcomerDraw | Assets/Scripts/Core/Simulation.cs:186-187 | a newcomer slot draws the seed right after those of the newcomers before it |
| GenerationalSimulation.ParentsOf | Assets/Scripts/Core/Simulation.cs:172-199 | one parameter record per pool member |
| GenerationalSimulation.ParentsDescribe | Assets/Scripts/Core/Simulation.cs:172-199 | those records describe the pool |
| GenerationalSimulation.CopySlot | Assets/Scripts/Core/Simulation.cs:181-184 | `Copy(parent)` gives a new network equal to the parent's, on seed 0's stream; a missing parent throws `NullReference` |
| GenerationalSimulation.BreedSlot | Assets/Scripts/Core/Simulation.cs:190-193 | `Breed(y, x)` then `Mutate()`, the mutation drawing from seed 0's stream; a missing parent throws `NullReference` (the degenerate layer sizes of its Left-out line aside) |
| GenerationalSimulation.BreedAndMutate | Assets/Scripts/Core/Simulation.cs:190-193 | the new network is the parents' mean mutated by the settings' factor with draws from seed 0's stream, with a fresh Id |
| GenerationalSimulation.RebuildSlot | Assets/Scripts/Core/Simulation.cs:176-197 | slot i becomes `new Specimen(i, settings, Maps[i])` with the network its role gives (`Rebuilt`: copies and offspring on seed 0's stream, newcomers on a drawn seed), or throws the exception its role raises |
| GenerationalSimulation.AllRebuiltSnoc | Assets/Scripts/Core/Simulation.cs:176-197 | one more rebuilt slot extends the rebuilt prefix |
| GenerationalSimulation.MadeSnoc | Assets/Scripts/Core/Simulation.cs:176-197 | one more specimen with a well-formed network extends the made prefix |
| GenerationalSimulation.RebuildNext | Assets/Scripts/Core/Simulation.cs:176-197 | `RebuildSlot` for the slot after those rebuilt so far |
| GenerationalSimulation.RebuildSlots | Assets/Scripts/Core/Simulation.cs:176-197 | the loop rebuilds the slots in order, all of them unless one throws, and then stops at that slot |
| GenerationalSimulation.Rebuild | Assets/Scripts/Core/Simulation.cs:172-199 | the reached slots hold their new specimens, with id i and map `Maps[i]`; the population length is unchanged |
| GenerationalSimulation.Simulation.ResetSpecimen | Assets/Scripts/Core/Simulation.cs:172-199 | the population as `Repopulated` describes, with each rebuilt network's parameters those `Made` names; only the population and the generator change |
| GenerationalSimulation.NewSeeded | Assets/Scripts/Core/Simulation.cs:217-221 | slot i gets a new specimen whose network is seeded with the next `Next()` draw |
| GenerationalSimulation.PopulateSlot | Assets/Scripts/Core/Simulation.cs:217-221 | slot i is seeded, and the other slots are unchanged |
| GenerationalSimulation.Populate | Assets/Scripts/Core/Simulation.cs:213-223 | every slot i gets a specimen with id i on map i, whose network is seeded with the i-th draw |
| GenerationalSimulation.DefaultSpecimens | Assets/Scripts/Core/Simulation.cs:49-50 | `new Specimen[count]` holds default specimens |
| GenerationalSimulation.NewMaps | Assets/Scripts/Core/Simulation.cs:55 | `GenerateMaps` drawing from the settings' seed |
| GenerationalSimulation.Initialize | Assets/Scripts/Core/Simulation.cs:45-60 | maps from the seed's generator, then a re-seeded generator and a first population of seeded specimens, each on its own map |
| GenerationalSimulation.Simulation.constructor | Assets/Scripts/Core/Simulation.cs:45-60 | for non-negative counts: the maps and population of `Initialize`; `Frame` 0, `Generation` 1, `MaxScore` 0, and default top and bottom arrays |
| GenerationalSimulation.FoodOf | Assets/Scripts/Core/Simulation.cs:201-211 | the maps' food, map by map |
| GenerationalSimulation.Simulation.SelectParents | Assets/Scripts/Core/Simulation.cs:102-104 | the top selection, the bottom selection and the ratchet, in a row (`Selected`) |
| GenerationalSimulation.Simulation.StartGeneration | Assets/Scripts/Core/Simulation.cs:107-112 | `ResetMapState`, then `Frame = 0` and `Generation` one higher (`Started`); the networks in `keep` are untouched |
| GenerationalSimulation.Simulation.Renew | Assets/Scripts/Core/Simulation.cs:106-112 | `ResetSpecimen` (with `Made`); unless it threw, the food is back and a new generation begins (`Renewed`) |
| GenerationalSimulation.Simulation.ResetSimulation | Assets/Scripts/Core/Simulation.cs:100-113 | the selection, then the rebuild (with `Made`), the map reset, `Frame = 0` and `Generation + 1`; a throw stops the sequence where it happened |
| GenerationalSimulation.Simulation.AdvanceFrame | Assets/Scripts/Core/Simulation.cs:83 | `Frame` is one higher, and nothing else changes |
| GenerationalSimulation.EatenPersists | Assets/Scripts/Core/Units/Specimen.cs:92-99 | moving and eating keep a specimen's identity, validity, network, map and settings |
| GenerationalSimulation.UpdateSlot | Assets/Scripts/Core/Simulation.cs:91-97 | `SlotUpdated`: slot 10 heads for the nearest valid food (throwing `InvalidOperation` when there is none); every other slot feeds `Sighted` to its network, turns by its first output times 360 (throwing `IndexOutOfRange` on an empty output layer); a slot that moves then tries to eat its target |
| GenerationalSimulation.SlotPersists | Assets/Scripts/Core/Simulation.cs:91-97 | whatever a slot does, the specimen stays the same specimen: only its position and score change |
| GenerationalSimulation.UpdateNext | Assets/Scripts/Core/Simulation.cs:91-97 | one slot updated as `SlotUpdated` says and stored back; only that slot and its map's food change |
| GenerationalSimulation.SweptUpToSnoc | Assets/Scripts/Core/Simulation.cs:91-97 | one more slot updated extends the loop so far, the other slots as they were |
| GenerationalSimulation.SweptPersists | Assets/Scripts/Core/Simulation.cs:91-97 | however far the loop got, every specimen stays the same specimen |
| GenerationalSimulation.UpdatedPersists | Assets/Scripts/Core/Simulation.cs:91-97 | an update of the whole stage keeps every specimen |
| GenerationalSimulation.UpdateSpecimens | Assets/Scripts/Core/Simulation.cs:91-97 | slot k of those reached goes as `SlotUpdated` says, on its own map's food; all slots are reached unless one throws; slots not reached are unchanged |
| GenerationalSimulation.Simulation.UpdateAll | Assets/Scripts/Core/Simulation.cs:91-97 | the whole population is updated slot by slot as `SlotUpdated` says (`Updated`); only the population and the food change |
| GenerationalSimulation.Simulation.CustomUpdate | Assets/Scripts/Core/Simulation.cs:81-98 | `Frame` is incremented. A frame divisible by `generationLengthFrames` resets the simulation (with `Made`) and skips the specimen updates. Any other frame updates the specimens slot by slot as `SlotUpdated` says. A generation length of 0 throws `DivideByZero` |
| ContinuousSimulation.Runs | Assets/Scripts/Core/Singleton/Simulation.cs:89-92 | the record of running the actions, one by one in order |
| ContinuousSimulation.RunsOfConcatenation | Assets/Scripts/Core/Singleton/Simulation.cs:89-92 | a queue filled in two batches runs the first batch and then the second |
| ContinuousSimulation.Seeded | Assets/Scripts/Core/Singleton/Simulation.cs:99-107 | one seeding record per seed, in order |
| ContinuousSimulation.SpecimenUpdates | Assets/Scripts/Core/Singleton/Simulation.cs:79-82 | one update record per specimen, in order |
| ContinuousSimulation.SpecimenUpdatesOfSnoc | Assets/Scripts/Core/Singleton/Simulation.cs:79-82 | one more specimen adds one record at the end |
| ContinuousSimulation.TreeUpdates | Assets/Scripts/Core/Singleton/Simulation.cs:84-87 | one update record per tree, in order |
| ContinuousSimulation.TreeUpdatesOfSnoc | Assets/Scripts/Core/Singleton/Simulation.cs:84-87 | one more tree adds one record at the end |
| ContinuousSimulation.HighestScore | Assets/Scripts/Core/Singleton/Simulation.cs:120-121 | a unit with the highest score, or null exactly when there are none |
| ContinuousSimulation.Count | Assets/Scripts/Core/Singleton/Simulation.cs:99-109 | how many times `for (i = 0; i < n; i++)` runs: n, or 0 for a negative n |
| ContinuousSimulation.Simulation.constructor | Assets/Scripts/Core/Singleton/Simulation.cs:59-65 | `StartSync`: the settings and a generator on the seed's stream; with the field initialisers of lines 25-31, frame 0, `MaxScore` 0 and an empty queue |
| ContinuousSimulation.Simulation.Enqueue | Assets/Scripts/Core/Singleton/Simulation.cs:89-92 | the action goes to the tail of the queue, and nothing else changes |
| ContinuousSimulation.Simulation.SpawnSpecimen | Assets/Scripts/Core/Singleton/Simulation.cs:99-107 | one registered specimen at a random spot of the spawn area, seeded with a `Next()` draw; three draws |
| ContinuousSimulation.Simulation.SpawnFood | Assets/Scripts/Core/Singleton/Simulation.cs:109-115 | one registered Food at a random spot of the spawn area; two draws |
| ContinuousSimulation.Simulation.SpawnInitialSpecimens | Assets/Scripts/Core/Singleton/Simulation.cs:99-107 | exactly `initialSpecimenCount` specimens are added, and no other kind's store changes |
| ContinuousSimulation.Simulation.SpawnInitialFood | Assets/Scripts/Core/Singleton/Simulation.cs:109-115 | exactly `initialFoodCount` Food are added, and no other kind's store changes |
| ContinuousSimulation.Simulation.SpawnInitialUnits | Assets/Scripts/Core/Singleton/Simulation.cs:97-116 | the specimen store grows by `initialSpecimenCount` and the Food store by `initialFoodCount`; trees, silica and shelters are unchanged; the trace gains one seeding record per specimen |
| ContinuousSimulation.Simulation.UpdateSpecimens | Assets/Scripts/Core/Singleton/Simulation.cs:79-82 | every registered specimen is updated exactly once, in some order |
| ContinuousSimulation.StepTree | Assets/Scripts/Core/Singleton/Simulation.cs:84-87 | one tree's `CustomUpdate(frame)` as a step of its state (`TreeStepped`): it keeps its generator, position, frequency and radius, its schedule and draws move as `Trees.Stepped` says, and it drops a valid, full Food at the point of its first two draws exactly on its spawn frame; that Food, under a fresh Guid, is the registry's only change; the only possible throw is `ArgumentOutOfRange` |
| ContinuousSimulation.DroppedOne | Assets/Scripts/Core/Units/Tree.cs:20-23 | registering the dropped Food, if any, changes only the Food store, by that Food, and issues one Guid |
| ContinuousSimulation.UpdateTree | Assets/Scripts/Core/Singleton/Simulation.cs:84-87 | the step of tree `t` (`TreeStepped`); every other tree keeps its state and the Food dropped before keep theirs |
| ContinuousSimulation.SweptSnoc | Assets/Scripts/Core/Singleton/Simulation.cs:84-87 | after one more tree's step, the trees stepped so far are still stepped, each once, and the others still keep their state |
| ContinuousSimulation.UpdateNextTree | Assets/Scripts/Core/Singleton/Simulation.cs:84-87 | one more tree of those not yet updated steps; the pass so far (`Swept`) extends by it, and the Food store by the Food it dropped |
| ContinuousSimulation.UpdateTrees | Assets/Scripts/Core/Singleton/Simulation.cs:84-87 | every registered tree steps once (`Swept`: each tree of `order` from its starting state as `TreeStepped` says) unless one throws, which ends the pass with the remaining trees unchanged; the Food store grows by exactly the Food those steps dropped, in order, and no other store changes |
| ContinuousSimulation.Simulation.UpdateTreesOf | Assets/Scripts/Core/Singleton/Simulation.cs:84-87 | the same tree steps, recorded in the trace in their order |
| ContinuousSimulation.Simulation.RunDeferredActions | Assets/Scripts/Core/Singleton/Simulation.cs:89-92 | the queued actions run in enqueue order, and the queue is then empty |
| ContinuousSimulation.Simulation.SaveTopSpecimen | Assets/Scripts/Core/Singleton/Simulation.cs:118-128 | `MaxScore` never decreases. It changes only when some specimen's score is strictly greater, and then to the best score. With no specimens it does nothing |
| ContinuousSimulation.Simulation.BeginTick | Assets/Scripts/Core/Singleton/Simulation.cs:69-72 | `Frame` is one higher, and the initial units are spawned exactly when the frame becomes 1 |
| ContinuousSimulation.Simulation.UpdateBeforeTrees | Assets/Scripts/Core/Singleton/Simulation.cs:69-82 | the frame, the spawning, then every specimen's update, in that order in the trace |
| ContinuousSimulation.Simulation.UpdateAfterTrees | Assets/Scripts/Core/Singleton/Simulation.cs:89-94 | the deferred actions drained in order, then the ratchet |
| ContinuousSimulation.Simulation.CustomUpdate | Assets/Scripts/Core/Singleton/Simulation.cs:67-95 | `Frame` is one higher, with spawning only on the first frame. Specimen updates come before tree updates, which come before the deferred actions. Every tree steps as `TreeStepped` says, from its state at the start of the tick (`Swept`). The queue ends empty and `MaxScore` never decreases. A tree whose draw throws ends the tick there |
| Trees.InitializeRandom | Assets/Scripts/Core/Units/Tree.cs:31-34 | the tree gets its own generator on the seed's stream, and nothing else changes |
| Trees.SpawnFood | Assets/Scripts/Core/Units/Tree.cs:20-23 | one new registered Food at a random point around the tree, from two draws |
| Trees.AdvanceSchedule | Assets/Scripts/Core/Units/Tree.cs:27-28 | `nextSpawn` grows by a draw from [spawnFrequency, 2·spawnFrequency); a negative frequency throws |
| Trees.SteppedSchedule | Assets/Scripts/Core/Units/Tree.cs:15-29 | a step never moves the schedule or the generator back; it throws exactly when the frame is at or after `nextSpawn` and the frequency is negative; a lawful draw moves `nextSpawn` into [f, 2f); before `nextSpawn` the schedule stays after the frame |
| Trees.CustomUpdate | Assets/Scripts/Core/Units/Tree.cs:15-29 | Food spawns exactly on the frame equal to `nextSpawn`, and at most one of it. At or after `nextSpawn`, `nextSpawn` grows by a value in [f, 2f). Before it, nothing changes. `nextSpawn` never decreases |

## Left out

- Sigmoid and Tanh (`Math.Exp`, `Math.Tanh`) are given to the genome as the uninterpreted
  functions of `Curves`.
- `Vector3.SignedAngle`, `Quaternion.AngleAxis`, `sin`, `cos` and `sqrt` are uninterpreted
  (`Geometry.Trig`). Only the laws `PositionAroundIsWithinRadius` needs are assumed of
  them, as a precondition.
- Floating point is modelled by exact reals. The `(float)` casts (in the clamp of
  `Core/Neural/NeuralNetwork.cs`, the specimen's angle, and the random positions) do not
  round.
- Integer overflow is not modelled. `int`, `long` and the counters are unbounded, and
  `Frame` never wraps.
- `System.Random`'s own generator algorithm is not modelled. A seed stands for a fixed
  stream of samples in [0, 1), and only `Next`'s range arithmetic over a sample is
  modelled.
- `Guid.NewGuid()` is a counter, so two Guids never collide.
- Concurrency is not modelled: `Parallel.For`, `Parallel.ForEach`, `Task.Run`, `lock`,
  `CancellationToken` and `Task.Delay`. Each parallel pass is a sequential loop. Over the
  registry's sets the order is left open. Over arrays it is index order, which is one of
  the orders the source allows.
- A tree that throws in `Parallel.ForEach` is modelled as ending the tick at that tree. In
  .NET the iterations already started still finish and no new ones need to start; which of
  the other trees are updated is not modelled.
- An exception thrown inside `Parallel.For` or `Parallel.ForEach` reaches the caller wrapped
  in an `AggregateException`. The model reports the inner exception itself, for example the
  `Thrown(ArgumentOutOfRange)` of `ContinuousSimulation.Simulation.CustomUpdate` and the slot
  throws of `GenerationalSimulation.UpdateSpecimens`.
- Saving the top network to JSON, the file writes, `Debug.Log` and the Unity and UI layer
  are left out.
- `Train` in both network files is an empty stub and is left out.
- The activation-function arrays passed to the dense networks are unused by the source and
  are left out.
- `INeural` is not modelled as an interface. `Genome.Copy` takes a `Genome`, so the cast's
  `InvalidCastException` and a null argument are not modelled.
- `Food.cs` and `Silica.cs` are folded into `Registry.Unit` as the `quantity` field.
- GraphGenome.Genome.AddNewNodeMutation: models the corrected selection and innovation
  numbering (see Findings), not the hanging loop as written. The first draw's
  `ArgumentOutOfRange` on an empty connection list is kept as written; the correction
  changes only what happens on a non-empty list. The same holds for every row
  marked "(corrected add-node)": `AddNodeFacts`, `SplitIds`, `AddNodeTo`, `AddNodeKeeps`,
  `MutationFacts`, `MutationAddsNode`, `Genome.MutateBy` and `Genome.Mutate` state the
  corrected add-node, whose two new connections get distinct innovation numbers.
- DenseNetwork.NeuralNetwork.constructor: requires at least one layer size, and its
  `seq<nat>` sizes exclude negative ones. On those sizes the source throws
  `OverflowException` from `new double[layerSizes.Length - 1][]` or `new double[n]`;
  `DenseNetwork.Create` models that throw and builds the network with this constructor
  otherwise.
- LegacyNetwork.NeuralNetwork.constructor: the same requires, for the same reason;
  `LegacyNetwork.Create` models the `OverflowException`.
- Specimens.InitializeRandom: requires the settings to give at least one layer size, of
  `nat`s, and so do `Specimens.Copy`, `Specimens.Breed` and the generational simulation
  that creates networks through them. `neuralNetworkLayerSizes` is a public settings field,
  and with an empty or negative size the source's `new NeuralNetwork` throws
  `OverflowException` there; that exception is modelled only in the networks' `Create`,
  not carried through the specimens and the simulation.
- GraphGenome.Genome.constructor: takes `nat` node counts. On a negative count the source's
  `new double[n]` throws `OverflowException`; `GraphGenome.NewGenome` models that throw and
  builds the genome with this constructor otherwise.
- GenerationalSimulation.Simulation.constructor: the settings' counts are `nat`. The source's
  settings are a public object edited through the UI, and a negative `specimenCount`,
  `topSpecimenToKeep` or `bottomSpecimenToKeep` (`new Specimen[n]`) or `foodCount`
  (`new Food[n]`) throws `OverflowException`; that throw is not modelled. A negative
  `newSpecimenToAdd` acts as 0 in the source, which the `nat` value 0 covers.
- GenerationalSimulation.Simulation: the settings are a `const` fixed for the whole run. In
  the source the settings object is shared and editable from the UI, and each reset reads it
  again; edits during a run are not modelled.
- GenerationalSimulation.BreedSlot: throws `NullReference` whenever a parent is missing. The
  source's `NeuralNetwork.Breed` reads its parents only inside its loops over the layers
  after the first and their neurons, so when no such layer has a neuron (a single layer, or
  every later size 0) `Breed` completes and `Mutate` runs, issuing a third Guid. The
  simulation's own calls do not reach this case, since the top selection is full whenever
  offspring slots exist.
- DenseNetwork.NeuralNetwork.Breed: requires both parents to have this network's layer
  shapes. Every caller breeds networks of one shape; on mismatched shapes the source would
  throw `IndexOutOfRange`, which is not modelled.
- DenseNetwork.NeuralNetwork.Copy: requires the copy and the parent to have the same layer
  shapes, for the same reason as `Breed`; the source's `IndexOutOfRange` on a mismatch is
  not modelled.
- GraphGenome.Genome.AddNewConnectionMutation: computes `GetNextConnectionId` before the two
  index draws and the `Exists` check. The source computes it after that check. The scan
  only reads, so nothing observable differs.
- GraphGenome.SplitConnection: builds the second connection from the old connection k after
  the insert. In the source `newConnection1` and `newConnection2` are built before the
  insert, from the same unchanged connection.
- GenerationalSimulation.Simulation.ResetSimulation: does not restate that `tops` and
  `bottoms` describe the parents after the selection. That is a fact about an
  intermediate heap. `Renew` and `ResetSpecimen` state it of their own starting state.
- GenerationalSimulation.Simulation.CustomUpdate: keeps `Valid()` only when the tick
  completes or no reset was due.
- ContinuousSimulation.Simulation.UpdateSpecimens: records each specimen update in the
  trace. The revision is inconsistent here: `ObjectDatabase<Specimen>` needs a `Unit`
  (`Core/Singleton/Database.cs:6` and `:58`), but the only `Specimen` types are a struct
  implementing `IUnit` (`Core/Units/Specimen.cs:22`) and a `MonoBehaviour`. The model
  assumes the specimens are `Unit`s whose `CustomUpdate` is the empty virtual one of
  `Core/Units/Unit.cs:10`.

## Findings

| source | as written | input that shows it | evidently intended | confidence | as-written member | corrected member |
|---|---|---|---|---|---|---|
| Assets/Scripts/Core/Neural/Genome.cs:151-152 | both new connections of add-node take `GetNextConnectionId()` before either is appended, so they share one innovation number | any genome with at least as many nodes as outputs, splitting any connection | the second connection is numbered one past the first, so innovation numbers stay distinct | not executed | GraphGenome.AsWrittenSplitRepeatsInnovation | GraphGenome.SplitFacts |
| Assets/Scripts/Core/Neural/Genome.cs:143-146 | the selection draws `Next(Count - 1)`, which never yields the last index; the do-while never ends when no other connection is enabled | connections `[ConnData(0,0,1,0.5,false), ConnData(1,0,2,0.5,true)]` | one draw among the enabled connections, the last one included, with nothing done when a non-empty list has none enabled (an empty list still throws as written) | not executed | GraphGenome.AsWrittenSelectHangsOnTwo | GraphGenome.PickReachesEvery |
