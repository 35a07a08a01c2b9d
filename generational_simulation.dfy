/** `Simulation` of `Core`: generations of a fixed population of specimens, each on a map of
    its own. Every tick updates every specimen; every `generationLengthFrames`-th tick instead
    selects the best and the worst specimens, keeps the best score, rebuilds the population
    from them and puts all food back.

    `Parallel.For` is modelled as a sequential loop, `Debug.Log` and the file writing of
    `SaveTopSpecimen` are left out, and `System.Random(seed)` is the sample stream `seeds`
    gives the seed. */
module GenerationalSimulation {
  import opened Errors
  import opened Ids
  import opened Geometry
  import opened Ordering
  import opened Comparers
  import opened Specimens
  import Rng
  import DenseNetwork
  import Layers

  /** `SimulationSettings`, a public object edited through the UI. The counts are `nat`s:
      the source allocates arrays of the first four, which throws `OverflowException` on a
      negative count, and a negative `newSpecimenToAdd` acts as 0. */
  datatype SimulationSettings = SimulationSettings(
    specimenCount: nat,
    foodCount: nat,
    topSpecimenToKeep: nat,
    bottomSpecimenToKeep: nat,
    newSpecimenToAdd: nat,
    generationLengthFrames: int,
    spawnArea: Rect,
    randomSeed: int,
    delayBetweenFramesMs: int,
    specimenSettings: SpecimenSettings)

  /** The settings' initial values. */
  const DefaultSimulationSettings := SimulationSettings(
    100, 50, 20, 10, 20, 500, Rect(-100.0, -100.0, 200.0, 200.0), 5, 0, DefaultSpecimenSettings)

  /** The id of the specimen that `CustomUpdateSimple` drives. */
  const HandWrittenId: int := 10

  // ----- Maps -----

  /** The food `GenerateMaps` caches: item `j` is new (valid) food with id `j` at the
      position the `2j`-th and `2j+1`-th draws after `start` give. */
  function CachedFood(area: Rect, stream: nat -> real, start: nat, count: nat): (r: seq<Food>)
    ensures |r| == count
  {
    seq(count, j requires 0 <= j < count =>
      NewFood(j, PositionWithinRect(area, stream(start + 2 * j), stream(start + 2 * j + 1))))
  }

  /** Every cached food is valid, carries its index as id and lies on the ground inside the
      spawn area. */
  lemma CachedFoodLiesInSpawnArea(area: Rect, stream: nat -> real, start: nat, count: nat, j: nat)
    requires Rng.IsSampleStream(stream) && j < count
    requires area.width >= 0.0 && area.height >= 0.0
    ensures var f := CachedFood(area, stream, start, count)[j];
            && f.valid && f.id == j && f.position.y == 0.0
            && area.x <= f.position.x <= area.x + area.width
            && area.y <= f.position.z <= area.y + area.height
  {
    var sx, sz := stream(start + 2 * j), stream(start + 2 * j + 1);
    PositionWithinRectAcross(area, sx, sz);
    PositionWithinRectAlong(area, sx, sz);
  }

  /** The food after `Reactivate()` on the first `n` items. */
  function ReactivatedPrefix(food: seq<Food>, n: nat): (r: seq<Food>)
    requires n <= |food|
    ensures |r| == |food|
    ensures forall j | n <= j < |food| :: r[j] == food[j]
  {
    seq(|food|, j requires 0 <= j < |food| => if j < n then ReactivateFood(food[j]) else food[j])
  }

  /** Eating only destroys food, so reactivating every item gives back the generated map:
      a map whose items are the cached ones, some of them destroyed, is restored exactly. */
  lemma ReactivationRestoresMap(cached: seq<Food>, food: seq<Food>)
    requires |food| == |cached|
    requires forall j | 0 <= j < |cached| :: cached[j].valid
    requires forall j | 0 <= j < |food| :: food[j] == cached[j] || food[j] == DestroyFood(cached[j])
    ensures ReactivatedPrefix(food, |food|) == cached
  {
    var r := ReactivatedPrefix(food, |food|);
    forall j | 0 <= j < |food|
      ensures r[j] == cached[j]
    {
      assert r[j] == ReactivateFood(food[j]);
    }
  }

  // ----- Selection -----

  /** `Generation == 1 ? Specimen : Specimen.Concat(TopSpecimen)`. */
  function Pool(specimen: seq<Specimen>, top: seq<Specimen>, generation: int): seq<Specimen>
  {
    if generation == 1 then specimen else specimen + top
  }

  /** The networks the specimens of `pool` carry. */
  ghost function NetworksOf(pool: seq<Specimen>): set<DenseNetwork.NeuralNetwork>
  {
    set i | 0 <= i < |pool| && pool[i].neural != null :: pool[i].neural
  }

  /** `pool.Select(s => (s, s.Neural))` with each network given by its `Id`. `ToHashSet`
      hashes every pair by its network's `Id`, so a specimen without a network makes the
      pipeline throw before anything is written. */
  function KeyPool(pool: seq<Specimen>): (r: Result<seq<Keyed<Specimen>>>)
    reads NetworksOf(pool)
    ensures r.Throws? <==> exists i | 0 <= i < |pool| :: pool[i].neural == null
    ensures r.Throws? ==> r.error == NullReference
    ensures r.Ok? ==> |r.value| == |pool|
    ensures r.Ok? ==> forall i | 0 <= i < |pool| :: pool[i].neural != null && r.value[i] == Keyed(pool[i], pool[i].neural.id)
    decreases |pool|
  {
    if pool == [] then Ok([])
    else if pool[0].neural == null then Throws(NullReference)
    else
      assert NetworksOf(pool[1..]) <= NetworksOf(pool) by {
        forall i | 0 <= i < |pool[1..]| && pool[1..][i].neural != null ensures pool[1..][i].neural in NetworksOf(pool) {
          assert pool[1..][i] == pool[i + 1];
        }
      }
      match KeyPool(pool[1..])
      case Throws(e) =>
        assert pool[1..][0] == pool[1];
        Throws(e)
      case Ok(rest) =>
        assert forall i | 1 <= i < |pool| :: pool[1..][i - 1] == pool[i];
        Ok([Keyed(pool[0], pool[0].neural.id)] + rest)
  }

  /** The specimens of the pairs. */
  function Items<T>(s: seq<Keyed<T>>): (r: seq<T>)
    ensures |r| == |s| && forall i | 0 <= i < |s| :: r[i] == s[i].item
  {
    seq(|s|, i requires 0 <= i < |s| => s[i].item)
  }

  /** What `OrderBy(s => s.Score)` sorts: the score (negated for `OrderByDescending`),
      tagged with the position. */
  function ScoreEntries(pool: seq<Specimen>, descending: bool): (r: seq<Entry>)
    ensures |r| == |pool| && TagsIncrease(r)
    ensures forall i | 0 <= i < |pool| :: r[i] == Entry(if descending then -pool[i].score else pool[i].score, i)
  {
    seq(|pool|, i requires 0 <= i < |pool| => Entry(if descending then -pool[i].score else pool[i].score, i))
  }

  /** The elements that `order` names, in its order. */
  function Pick<T>(s: seq<T>, order: seq<Entry>): (r: seq<T>)
    requires forall k | 0 <= k < |order| :: 0 <= order[k].tag < |s|
    ensures |r| == |order| && forall k | 0 <= k < |order| :: r[k] == s[order[k].tag]
  {
    seq(|order|, k requires 0 <= k < |order| => s[order[k].tag])
  }

  /** `OrderBy(Score)` (or `OrderByDescending`) and then `Take(count)`, as the positions
      of the chosen specimens. */
  function Ranked(pool: seq<Specimen>, descending: bool, count: nat): (r: seq<Entry>)
    ensures |r| == if count < |pool| then count else |pool|
    ensures forall k | 0 <= k < |r| :: 0 <= r[k].tag < |pool| && r[k] == ScoreEntries(pool, descending)[r[k].tag]
  {
    var entries := ScoreEntries(pool, descending);
    var sorted := Sort(entries);
    var r := Take(sorted, count);
    assert forall k | 0 <= k < |r| :: r[k] in entries by {
      forall k | 0 <= k < |r|
        ensures r[k] in entries
      {
        assert r[k] == sorted[k];
        assert sorted[k] in multiset(sorted);
      }
    }
    r
  }

  /** The ranking is in score order (ties by position), names every position at most once,
      and every position it leaves out scores no better than any it names; it leaves none
      out when it is shorter than `count`. */
  lemma RankedAreBest(pool: seq<Specimen>, descending: bool, count: nat, i: nat)
    requires i < |pool|
    ensures SortedByKeyThenTag(Ranked(pool, descending, count))
    ensures forall k, k' | 0 <= k < k' < |Ranked(pool, descending, count)| ::
              Ranked(pool, descending, count)[k].tag != Ranked(pool, descending, count)[k'].tag
    ensures ScoreEntries(pool, descending)[i] in Ranked(pool, descending, count)
            || forall k | 0 <= k < |Ranked(pool, descending, count)| ::
                 Precedes(Ranked(pool, descending, count)[k], ScoreEntries(pool, descending)[i])
    ensures |Ranked(pool, descending, count)| < count ==> ScoreEntries(pool, descending)[i] in Ranked(pool, descending, count)
  {
    var entries := ScoreEntries(pool, descending);
    var r := Ranked(pool, descending, count);
    assert r == Take(Sort(entries), count);
    SortKeepsTagsDistinct(entries);
    TakeSortedIsLeast(entries, count, entries[i]);
  }

  /** `SelectTopSpecimen`'s pipeline on the keyed pool: one pair per network, the first of
      the pool with it, in descending score order (ties in pool order), at most `count`. */
  function SelectTop(keyed: seq<Keyed<Specimen>>, count: nat): (r: seq<Keyed<Specimen>>)
  {
    var d := ToHashSet(keyed);
    Pick(d, Ranked(Items(d), true, count))
  }

  /** The top selection holds no two pairs of one network, comes from the pool and is
      ordered by descending score, ... */
  lemma TopAreDistinct(keyed: seq<Keyed<Specimen>>, count: nat)
    ensures |SelectTop(keyed, count)| == if count < |ToHashSet(keyed)| then count else |ToHashSet(keyed)|
    ensures DistinctNetworks(SelectTop(keyed, count))
    ensures forall x | x in SelectTop(keyed, count) :: x in keyed
    ensures forall k, k' | 0 <= k < k' < |SelectTop(keyed, count)| ::
              SelectTop(keyed, count)[k].item.score >= SelectTop(keyed, count)[k'].item.score
  {
    var d := ToHashSet(keyed);
    var order := Ranked(Items(d), true, count);
    var r := SelectTop(keyed, count);
    assert r == Pick(d, order);
    ToHashSetKeepsFirstOfEachNetwork(keyed);
    if |d| > 0 {
      RankedAreBest(Items(d), true, count, 0);
    }
    forall k, k' | 0 <= k < k' < |r|
      ensures r[k].netId != r[k'].netId && r[k].item.score >= r[k'].item.score
    {
      assert order[k].tag != order[k'].tag;
      assert Precedes(order[k], order[k']);
    }
    forall x | x in r
      ensures x in keyed
    {
      var k :| 0 <= k < |r| && r[k] == x;
      assert x == d[order[k].tag];
    }
  }

  /** ... every network's first pair that it leaves out scores no more than any pair it
      keeps, ... */
  lemma TopAreBest(keyed: seq<Keyed<Specimen>>, count: nat, i: nat)
    requires i < |keyed| && IsFirstOfNetwork(keyed, i)
    ensures keyed[i] in SelectTop(keyed, count)
            || forall k | 0 <= k < |SelectTop(keyed, count)| :: SelectTop(keyed, count)[k].item.score >= keyed[i].item.score
  {
    var d := ToHashSet(keyed);
    var items := Items(d);
    var order := Ranked(items, true, count);
    var r := SelectTop(keyed, count);
    assert r == Pick(d, order);
    ToHashSetKeepsFirstOfEachNetwork(keyed);
    var p :| 0 <= p < |d| && d[p] == keyed[i];
    var e := ScoreEntries(items, true)[p];
    RankedAreBest(items, true, count, p);
    if e in order {
      var k :| 0 <= k < |order| && order[k] == e;
      assert r[k] == keyed[i];
    } else {
      forall k | 0 <= k < |r|
        ensures r[k].item.score >= keyed[i].item.score
      {
        assert Precedes(order[k], e);
      }
    }
  }

  /** ... and when it holds fewer than `count` pairs it holds every network of the pool. */
  lemma TopAreComplete(keyed: seq<Keyed<Specimen>>, count: nat)
    requires |SelectTop(keyed, count)| < count
    ensures Networks(SelectTop(keyed, count)) == Networks(keyed)
  {
    var d := ToHashSet(keyed);
    var items := Items(d);
    var order := Ranked(items, true, count);
    var r := SelectTop(keyed, count);
    assert r == Pick(d, order);
    ToHashSetKeepsFirstOfEachNetwork(keyed);
    forall g | g in Networks(keyed)
      ensures g in Networks(r)
    {
      assert g in Networks(d);
      var p :| 0 <= p < |d| && d[p].netId == g;
      RankedAreBest(items, true, count, p);
      var k :| 0 <= k < |order| && order[k] == ScoreEntries(items, true)[p];
      assert r[k] == d[p];
    }
    forall g | g in Networks(r)
      ensures g in Networks(keyed)
    {
      var k :| 0 <= k < |r| && r[k].netId == g;
      assert r[k] == d[order[k].tag];
      assert g in Networks(d);
    }
  }

  /** `SelectBottomSpecimen`'s pipeline: the specimens in ascending score order (ties in
      array order), at most `count`. */
  function SelectBottom(specimen: seq<Specimen>, count: nat): (r: seq<Specimen>)
  {
    Pick(specimen, Ranked(specimen, false, count))
  }

  /** The bottom selection takes `min(count, |specimen|)` distinct positions of the
      population, in ascending score order, and every specimen it leaves out scores no
      less than any it takes. */
  lemma BottomAreWorst(specimen: seq<Specimen>, count: nat)
    ensures |SelectBottom(specimen, count)| == if count < |specimen| then count else |specimen|
    ensures forall k, k' | 0 <= k < k' < |SelectBottom(specimen, count)| ::
              SelectBottom(specimen, count)[k].score <= SelectBottom(specimen, count)[k'].score
              && Ranked(specimen, false, count)[k].tag != Ranked(specimen, false, count)[k'].tag
    ensures forall i | 0 <= i < |specimen| ::
              specimen[i] in SelectBottom(specimen, count)
              || forall k | 0 <= k < |SelectBottom(specimen, count)| :: SelectBottom(specimen, count)[k].score <= specimen[i].score
  {
    var order := Ranked(specimen, false, count);
    var r := SelectBottom(specimen, count);
    if |specimen| > 0 {
      RankedAreBest(specimen, false, count, 0);
    }
    forall k, k' | 0 <= k < k' < |r|
      ensures r[k].score <= r[k'].score && order[k].tag != order[k'].tag
    {
      assert Precedes(order[k], order[k']);
    }
    forall i | 0 <= i < |specimen|
      ensures specimen[i] in r || forall k | 0 <= k < |r| :: r[k].score <= specimen[i].score
    {
      RankedAreBest(specimen, false, count, i);
      if ScoreEntries(specimen, false)[i] in order {
        var k :| 0 <= k < |order| && order[k] == ScoreEntries(specimen, false)[i];
        assert r[k] == specimen[i];
      } else {
        forall k | 0 <= k < |r|
          ensures r[k].score <= specimen[i].score
        {
          assert Precedes(order[k], ScoreEntries(specimen, false)[i]);
        }
      }
    }
  }

  // ----- The score ratchet -----

  /** `TopSpecimen.Where(s => s.Id != 10).First()`: the first top specimen that is not the
      hand-written one; `First()` of nothing throws. */
  function FirstScored(top: seq<Specimen>): (r: Result<Specimen>)
    ensures r.Throws? <==> forall i | 0 <= i < |top| :: top[i].id == HandWrittenId
    ensures r.Throws? ==> r.error == InvalidOperation
    ensures r.Ok? ==> r.value.id != HandWrittenId
    ensures r.Ok? ==> exists i | 0 <= i < |top| :: top[i] == r.value && forall j | 0 <= j < i :: top[j].id == HandWrittenId
    decreases |top|
  {
    if top == [] then Throws(InvalidOperation)
    else if top[0].id != HandWrittenId then Ok(top[0])
    else
      var r := FirstScored(top[1..]);
      assert forall i | 1 <= i < |top| :: top[1..][i - 1] == top[i];
      if r.Ok? then
        var i :| 0 <= i < |top[1..]| && top[1..][i] == r.value && forall j | 0 <= j < i :: top[1..][j].id == HandWrittenId;
        assert top[i + 1] == r.value && forall j | 0 <= j < i + 1 :: top[j].id == HandWrittenId;
        r
      else r
  }

  /** `SaveTopSpecimen`'s effect on `MaxScore`: raised to the first scored top specimen's
      score when that is strictly greater, otherwise kept. */
  function Ratchet(maxScore: real, top: seq<Specimen>): (r: Result<real>)
    ensures r.Throws? <==> FirstScored(top).Throws?
    ensures r.Throws? ==> r.error == InvalidOperation
    ensures r.Ok? ==> r.value >= maxScore
    ensures r.Ok? ==> (r.value != maxScore <==> FirstScored(top).value.score > maxScore)
    ensures r.Ok? && r.value != maxScore ==> r.value == FirstScored(top).value.score
  {
    match FirstScored(top)
    case Throws(e) => Throws(e)
    case Ok(s) => if s.score <= maxScore then Ok(maxScore) else Ok(s.score)
  }

  // ----- Rebuilding the population -----

  /** What `ResetSpecimen` puts in a slot: a copy of a top specimen's network, a copy of a
      bottom specimen's, a network seeded with the `draw`-th draw of the simulation's
      generator, or a mutated offspring of two top specimens. */
  datatype Role = Elite(top: nat) | Survivor(bottom: nat) | Newcomer(draw: nat) | Offspring(y: nat, x: nat)

  /** The role of slot `i` with `k` top, `m` bottom and `n` new specimens; the offspring's
      `% k` divides by zero when no top specimen is kept. */
  function RoleOf(i: nat, k: nat, m: nat, n: nat): (r: Result<Role>)
    ensures r.Throws? <==> k + m + n <= i && k == 0
    ensures r.Throws? ==> r.error == DivideByZero
    ensures r.Ok? ==> (r.value.Elite? <==> i < k) && (r.value.Survivor? <==> k <= i < k + m)
    ensures r.Ok? ==> (r.value.Newcomer? <==> k + m <= i < k + m + n) && (r.value.Offspring? <==> k + m + n <= i)
    ensures r.Ok? && r.value.Elite? ==> r.value.top == i
    ensures r.Ok? && r.value.Survivor? ==> r.value.bottom < m && r.value.bottom % m == i % m
    ensures r.Ok? && r.value.Newcomer? ==> r.value.draw < n
    ensures r.Ok? && r.value.Offspring? ==> r.value.y < k && r.value.x < k
  {
    if i < k then Ok(Elite(i))
    else if i < m + k then Ok(Survivor(i % m))
    else if i < m + k + n then Ok(Newcomer(i - k - m))
    else if k == 0 then Throws(DivideByZero)
    else Ok(Offspring(i % k, (2 * i + i % 2 + i % 3) % k))
  }

  /** The survivor slots copy every bottom specimen exactly once. */
  lemma SurvivorsCoverBottom(k: nat, m: nat, n: nat, j: nat)
    requires j < m
    ensures exists i | k <= i < k + m :: RoleOf(i, k, m, n) == Ok(Survivor(j))
    ensures forall i, i' | k <= i < i' < k + m :: RoleOf(i, k, m, n) != RoleOf(i', k, m, n)
  {
    var i := SlotWithResidue(k, m, j);
    assert RoleOf(i, k, m, n) == Ok(Survivor(j));
    forall i, i' | k <= i < i' < k + m
      ensures RoleOf(i, k, m, n) != RoleOf(i', k, m, n)
    {
      DistinctResidues(i, i', m);
    }
  }

  /** The slot of `[k, k + m)` whose remainder by `m` is `j`. */
  lemma SlotWithResidue(k: nat, m: nat, j: nat) returns (i: nat)
    requires j < m
    ensures k <= i < k + m && i % m == j
  {
    var q := k / m;
    assert k == q * m + k % m;
    if q * m + j >= k {
      i := q * m + j;
      DivModUnique(i, m, q, j);
    } else {
      i := (q + 1) * m + j;
      DivModUnique(i, m, q + 1, j);
    }
  }

  /** Fewer than `m` apart, two numbers have different remainders by `m`. */
  lemma DistinctResidues(i: nat, i': nat, m: nat)
    requires i < i' < i + m
    ensures i % m != i' % m
  {
    var q, r := i / m, i % m;
    if r + (i' - i) < m {
      DivModUnique(i', m, q, r + (i' - i));
    } else {
      DivModUnique(i', m, q + 1, r + (i' - i) - m);
    }
  }

  /** Euclidean division is unique. */
  lemma DivModUnique(a: int, m: int, q: int, r: int)
    requires m > 0 && 0 <= r < m && a == q * m + r
    ensures a % m == r && a / m == q
  {
    var q', r' := a / m, a % m;
    assert a == q' * m + r';
    assert (q - q') * m == r' - r;
    MultipleBounds(q - q', m);
  }

  lemma MultipleBounds(x: int, m: int)
    requires m > 0
    ensures x >= 1 ==> x * m >= m
    ensures x <= -1 ==> x * m <= -m
  {
    if x >= 1 {
      assert x * m == (x - 1) * m + m;
      assert (x - 1) * m >= 0;
    }
    if x <= -1 {
      assert x * m == (x + 1) * m - m;
      assert (x + 1) * m <= 0;
    }
  }

  /** The newcomer slots draw one seed each, the `d`-th of them the `d`-th seed. */
  lemma NewcomersDrawInOrder(k: nat, m: nat, n: nat, i: nat, i': nat)
    requires k + m <= i < i' < k + m + n
    ensures RoleOf(i, k, m, n).Ok? && RoleOf(i', k, m, n).Ok?
    ensures RoleOf(i, k, m, n).value.draw < RoleOf(i', k, m, n).value.draw
    ensures RoleOf(i', k, m, n).value.draw - RoleOf(i, k, m, n).value.draw == i' - i
  {
  }

  /** Where slot `i`'s newcomer draw comes: the newcomer slots before `i` have drawn one
      seed each. */
  function DrawsBefore(i: nat, k: nat, m: nat, n: nat): (r: nat)
    ensures r <= n
  {
    if i <= k + m then 0 else if i <= k + m + n then i - k - m else n
  }

  /** A newcomer slot draws the seed after those of the newcomer slots before it. */
  lemma NewcomerDraw(i: nat, k: nat, m: nat, n: nat)
    requires RoleOf(i, k, m, n).Ok? && RoleOf(i, k, m, n).value.Newcomer?
    ensures DrawsBefore(i, k, m, n) == RoleOf(i, k, m, n).value.draw
    ensures DrawsBefore(i + 1, k, m, n) == DrawsBefore(i, k, m, n) + 1
  {
  }

  /** What a network is made of once built: its Id, layer sizes, parameters and the sample
      stream of its generator. */
  datatype Parameters = Parameters(id: Guid, sizes: seq<nat>, weights: Layers.Weights, biases: Layers.Biases,
                                   stream: nat -> real)

  ghost function ParametersOf(n: DenseNetwork.NeuralNetwork): Parameters
    reads n
  {
    Parameters(n.id, n.sizes, n.weights, n.biases, n.random.stream)
  }

  /** The parameters of the networks the specimens of `pool` carry (anything for a
      specimen without one). */
  ghost function ParentsOf(pool: seq<Specimen>): (r: seq<Parameters>)
    reads NetworksOf(pool)
    ensures |r| == |pool|
  {
    seq(|pool|, i requires 0 <= i < |pool| reads NetworksOf(pool) =>
      if pool[i].neural == null then Parameters(Guid(0), [], [], [], _ => 0.0)
      else assert pool[i].neural in NetworksOf(pool); ParametersOf(pool[i].neural))
  }

  /** `params` are the parameters of the networks the specimens of `pool` carry. */
  ghost predicate Describes(params: seq<Parameters>, pool: seq<Specimen>)
    reads NetworksOf(pool)
  {
    && |params| == |pool|
    && forall i | 0 <= i < |pool| && pool[i].neural != null ::
         params[i] == ParametersOf(pool[i].neural)
  }

  lemma ParentsDescribe(pool: seq<Specimen>)
    ensures Describes(ParentsOf(pool), pool)
  {
  }

  /** `p` has the parameters and the Id of `parent`. */
  ghost predicate Copied(p: Parameters, parent: Parameters)
  {
    p.id == parent.id && p.weights == parent.weights && p.biases == parent.biases
  }

  /** `p`'s layers are the means `mw`, `mb` of `y`'s and `x`'s layers, each mutated by
      `factor` with the draws of `p`'s generator that follow its initialisation. */
  ghost predicate BredThrough(p: Parameters, y: Parameters, x: Parameters, factor: real, mw: Layers.Weights, mb: Layers.Biases)
  {
    && DenseNetwork.MeanLayers(y.weights, y.biases, x.weights, x.biases, mw, mb)
    && |p.sizes| >= 1
    && DenseNetwork.MutatedLayers(p.stream, Layers.TotalDraws(p.sizes, 1), p.sizes, factor, mw, mb, p.weights, p.biases)
  }

  /** `p` is `y` bred with `x` and then mutated by `factor`. */
  ghost predicate Bred(p: Parameters, y: Parameters, x: Parameters, factor: real)
  {
    exists mw: Layers.Weights, mb: Layers.Biases :: BredThrough(p, y, x, factor, mw, mb)
  }

  /** What `ResetSpecimen` leaves in slot `i`: `new Specimen(i, settings, home)` whose new
      network, of parameters `p`, the slot's role determines from the top and bottom
      specimens (their networks' parameters are `tops` and `bottoms`). Copies and offspring
      start from `InitializeRandom(0)`, so their generators run over seed 0's stream;
      newcomers are seeded with the draws of `draws` from `start` on. Every new Id is above
      `issued`. */
  ghost predicate Rebuilt(x: Specimen, p: Parameters, i: nat, home: Map, settings: SimulationSettings,
                          top: seq<Specimen>, bottom: seq<Specimen>, tops: seq<Parameters>, bottoms: seq<Parameters>,
                          seeds: int -> (nat -> real), draws: nat -> real, start: nat, issued: nat)
    requires |top| == |tops| == settings.topSpecimenToKeep && |bottom| == |bottoms| == settings.bottomSpecimenToKeep
    requires Rng.IsSampleStream(draws)
  {
    var ss := settings.specimenSettings;
    && x == NewSpecimen(i, ss, home).(neural := x.neural)
    && x.neural != null && p.sizes == ss.layerSizes
    && match RoleOf(i, settings.topSpecimenToKeep, settings.bottomSpecimenToKeep, settings.newSpecimenToAdd)
       case Throws(_) => false
       case Ok(Elite(t)) => top[t].neural != null && Copied(p, tops[t]) && p.stream == seeds(0)
       case Ok(Survivor(b)) => bottom[b].neural != null && Copied(p, bottoms[b]) && p.stream == seeds(0)
       case Ok(Newcomer(d)) => p.stream == seeds(Rng.Below(draws(start + d), Rng.IntMaxValue)) && p.id.value > issued
       case Ok(Offspring(py, px)) =>
         && top[py].neural != null && top[px].neural != null
         && Bred(p, tops[py], tops[px], ss.mutationFactor) && p.stream == seeds(0) && p.id.value > issued
  }

  /** The specimen may have moved and eaten, but is the same specimen: the same validity,
      id, network, settings and map, and a score that stayed or grew by 50. */
  predicate Persists(before: Specimen, after: Specimen)
  {
    && after == before.(position := after.position, score := after.score)
    && (after.score == before.score || after.score == before.score + 50.0)
  }

  /** Moving and trying to eat keeps the specimen. */
  lemma EatenPersists(s: Specimen, trig: Trig, angle: real, target: Target, before: seq<Food>,
                      r: Specimen, outcome: Outcome, after: seq<Food>)
    requires Eaten(s, trig, angle, target, before, r, outcome, after)
    ensures Persists(s, r)
  {
  }

  // ----- The array loops -----

  /** The `foreach` that writes a selection to the front of `a`; the rest of `a` keeps what
      it held. */
  method WriteFront(a: array<Specimen>, values: seq<Specimen>)
    requires |values| <= a.Length
    modifies a
    ensures a[..] == values + old(a[..])[|values|..]
  {
    var i := 0;
    while i < |values|
      invariant 0 <= i <= |values|
      invariant forall k | 0 <= k < i :: a[k] == values[k]
      invariant forall k | i <= k < a.Length :: a[k] == old(a[k])
    {
      a[i] := values[i];
      i := i + 1;
    }
    assert a[..] == values + old(a[..])[|values|..];
  }

  /** `Food[j].Reactivate()` for the first `n` items of one map. */
  method ReactivateFirst(food: array<Food>, n: nat)
    requires n <= food.Length
    modifies food
    ensures food[..] == ReactivatedPrefix(old(food[..]), n)
  {
    var j := 0;
    while j < n
      invariant 0 <= j <= n
      invariant forall k | 0 <= k < j :: food[k] == ReactivateFood(old(food[k]))
      invariant forall k | j <= k < food.Length :: food[k] == old(food[k])
    {
      food[j] := ReactivateFood(food[j]);
      j := j + 1;
    }
    assert food[..] == ReactivatedPrefix(old(food[..]), n);
  }

  /** `ResetMapState`: every map gets its first `n` food items back. */
  method ResetMaps(maps: array<Map>, n: nat, ghost foods: set<array<Food>>)
    requires forall i | 0 <= i < maps.Length :: maps[i].food in foods && n <= maps[i].food.Length
    requires forall i, j | 0 <= i < j < maps.Length :: maps[i].food != maps[j].food
    modifies foods
    ensures forall i | 0 <= i < maps.Length :: maps[i].food[..] == ReactivatedPrefix(old(maps[i].food[..]), n)
  {
    var i := 0;
    while i < maps.Length
      invariant 0 <= i <= maps.Length
      invariant forall k | 0 <= k < i :: maps[k].food[..] == ReactivatedPrefix(old(maps[k].food[..]), n)
      invariant forall k | i <= k < maps.Length :: maps[k].food[..] == old(maps[k].food[..])
    {
      ReactivateFirst(maps[i].food, n);
      i := i + 1;
    }
  }

  /** A new array holding `food`: the copy loop of `GenerateMaps`. */
  method CopyFood(food: seq<Food>) returns (a: array<Food>)
    ensures fresh(a) && a[..] == food
  {
    a := new Food[|food|](_ => DefaultFood);
    var j := 0;
    while j < a.Length
      invariant 0 <= j <= a.Length
      invariant forall k | 0 <= k < j :: a[k] == food[k]
    {
      a[j] := food[j];
      j := j + 1;
    }
    assert a[..] == food;
  }

  /** `GenerateMaps`: `specimenCount` maps, each with its own copy of the same `foodCount`
      cached food items, drawn two samples each. */
  method GenerateMaps(settings: SimulationSettings, random: Rng.Random) returns (maps: array<Map>)
    requires random.Valid()
    modifies random
    ensures fresh(maps) && maps.Length == settings.specimenCount
    ensures random.position == old(random.position) + 2 * settings.foodCount
    ensures forall i | 0 <= i < maps.Length ::
              fresh(maps[i].food)
              && maps[i].food[..] == CachedFood(settings.spawnArea, random.stream, old(random.position), settings.foodCount)
    ensures forall i, j | 0 <= i < j < maps.Length :: maps[i].food != maps[j].food
  {
    ghost var start := random.position;
    var cachedFood := new Food[settings.foodCount](_ => DefaultFood);
    var i := 0;
    while i < cachedFood.Length
      invariant 0 <= i <= cachedFood.Length
      invariant random.position == start + 2 * i
      invariant forall j | 0 <= j < i ::
                  cachedFood[j] == CachedFood(settings.spawnArea, random.stream, start, settings.foodCount)[j]
    {
      var sampleX := random.NextDouble();
      var sampleZ := random.NextDouble();
      cachedFood[i] := NewFood(i, PositionWithinRect(settings.spawnArea, sampleX, sampleZ));
      i := i + 1;
    }
    var cached := cachedFood[..];
    assert cached == CachedFood(settings.spawnArea, random.stream, start, settings.foodCount);
    var made: seq<Map> := [];
    while |made| < settings.specimenCount
      invariant |made| <= settings.specimenCount
      invariant forall k | 0 <= k < |made| :: fresh(made[k].food) && made[k].food[..] == cached
      invariant forall k, k' | 0 <= k < k' < |made| :: made[k].food != made[k'].food
      invariant random.position == start + 2 * settings.foodCount
    {
      var foodForMap := CopyFood(cached);
      var home := new Map(foodForMap);
      made := made + [home];
    }
    maps := new Map[|made|](k requires 0 <= k < |made| => made[k]);
  }

  /** The network slot `i`'s role needs is missing: the role's top or bottom specimen has
      none (it was never filled). */
  ghost predicate ParentMissing(i: nat, settings: SimulationSettings, top: seq<Specimen>, bottom: seq<Specimen>)
    requires |top| == settings.topSpecimenToKeep && |bottom| == settings.bottomSpecimenToKeep
  {
    match RoleOf(i, settings.topSpecimenToKeep, settings.bottomSpecimenToKeep, settings.newSpecimenToAdd)
    case Throws(_) => false
    case Ok(Elite(p)) => top[p].neural == null
    case Ok(Survivor(p)) => bottom[p].neural == null
    case Ok(Newcomer(_)) => false
    case Ok(Offspring(py, px)) => top[py].neural == null || top[px].neural == null
  }

  /** The networks the top and bottom specimens carry can be copied and bred. */
  ghost predicate Parents(settings: SimulationSettings, top: seq<Specimen>, bottom: seq<Specimen>, nets: set<DenseNetwork.NeuralNetwork>)
    reads nets
  {
    && |top| == settings.topSpecimenToKeep && |bottom| == settings.bottomSpecimenToKeep
    && |settings.specimenSettings.layerSizes| >= 1
    && (forall p | 0 <= p < |top| :: top[p].neural == null || top[p].neural in nets)
    && (forall p | 0 <= p < |bottom| :: bottom[p].neural == null || bottom[p].neural in nets)
    && (forall n | n in nets :: Fits(n, settings.specimenSettings))
  }

  /** `newSpecimen.Copy(parent)` for an elite or a survivor. A missing parent is found only
      after the new network exists. */
  method CopySlot(s: Specimen, parent: DenseNetwork.NeuralNetwork?, seeds: int -> (nat -> real), guids: GuidSource)
    returns (x: Specimen, outcome: Outcome)
    requires Rng.IsSeeding(seeds) && |s.settings.layerSizes| >= 1
    requires parent != null ==> Fits(parent, s.settings)
    modifies guids
    ensures guids.issued == old(guids.issued) + 1
    ensures outcome == (if parent == null then Thrown(NullReference) else Done)
    ensures outcome == Done ==> && x == s.(neural := x.neural) && x.neural != null && fresh(x.neural)
                                && Fits(x.neural, s.settings) && Copied(ParametersOf(x.neural), ParametersOf(parent))
                                && x.neural.random.stream == seeds(0)
  {
    if parent == null {
      var orphan := InitializeRandom(s, 0, seeds, guids);
      return s, Thrown(NullReference);
    }
    x := Copy(s, parent, seeds, guids);
    outcome := Done;
  }

  /** `newSpecimen.Breed(y, x); newSpecimen.Mutate()` for an offspring. `Breed` creates the
      network and draws its Id before it reaches a missing parent. */
  method BreedSlot(s: Specimen, py: DenseNetwork.NeuralNetwork?, px: DenseNetwork.NeuralNetwork?,
                   seeds: int -> (nat -> real), guids: GuidSource)
    returns (x: Specimen, outcome: Outcome)
    requires Rng.IsSeeding(seeds) && |s.settings.layerSizes| >= 1
    requires py != null ==> Fits(py, s.settings)
    requires px != null ==> Fits(px, s.settings)
    modifies guids
    ensures guids.issued >= old(guids.issued) + 2
    ensures outcome == (if py == null || px == null then Thrown(NullReference) else Done)
    ensures outcome == Done ==> && x == s.(neural := x.neural) && x.neural != null && fresh(x.neural)
                                && py != null && px != null && Fits(x.neural, s.settings)
                                && Bred(ParametersOf(x.neural), ParametersOf(py), ParametersOf(px), s.settings.mutationFactor)
                                && x.neural.random.stream == seeds(0) && x.neural.id.value > old(guids.issued)
  {
    if py == null || px == null {
      var orphan := InitializeRandom(s, 0, seeds, guids);
      var id := guids.NewGuid();
      return s, Thrown(NullReference);
    }
    x := BreedAndMutate(s, py, px, seeds, guids);
    outcome := Done;
  }

  /** `Breed(y, x)` on two existing parents, then `Mutate()`. */
  method BreedAndMutate(s: Specimen, py: DenseNetwork.NeuralNetwork, px: DenseNetwork.NeuralNetwork,
                        seeds: int -> (nat -> real), guids: GuidSource)
    returns (x: Specimen)
    requires Rng.IsSeeding(seeds) && |s.settings.layerSizes| >= 1
    requires Fits(py, s.settings) && Fits(px, s.settings)
    modifies guids
    ensures guids.issued == old(guids.issued) + 3
    ensures x == s.(neural := x.neural) && x.neural != null && fresh(x.neural) && Fits(x.neural, s.settings)
    ensures Bred(ParametersOf(x.neural), ParametersOf(py), ParametersOf(px), s.settings.mutationFactor)
    ensures x.neural.random.stream == seeds(0) && x.neural.id.value > old(guids.issued)
  {
    x := Breed(s, py, px, seeds, guids);
    ghost var n := x.neural;
    ghost var mw, mb := n.weights, n.biases;
    Mutate(x, guids);
    assert BredThrough(ParametersOf(n), ParametersOf(py), ParametersOf(px), s.settings.mutationFactor, mw, mb);
  }

  /** One iteration of `ResetSpecimen`'s loop: the specimen for slot `i`, or the exception
      that ends the loop there. The role's indices are those the loop computes. */
  method RebuildSlot(i: nat, home: Map, settings: SimulationSettings, top: seq<Specimen>, bottom: seq<Specimen>,
                     random: Rng.Random, seeds: int -> (nat -> real), guids: GuidSource,
                     ghost nets: set<DenseNetwork.NeuralNetwork>, ghost tops: seq<Parameters>, ghost bottoms: seq<Parameters>,
                     ghost start: nat, ghost issued: nat)
    returns (x: Specimen, outcome: Outcome)
    requires Parents(settings, top, bottom, nets) && Rng.IsSeeding(seeds) && random.Valid()
    requires tops == ParentsOf(top) && bottoms == ParentsOf(bottom)
    requires random.position == start + DrawsBefore(i, settings.topSpecimenToKeep, settings.bottomSpecimenToKeep, settings.newSpecimenToAdd)
    requires issued <= guids.issued
    modifies random, guids
    ensures random.position == start + DrawsBefore(i + 1, settings.topSpecimenToKeep, settings.bottomSpecimenToKeep, settings.newSpecimenToAdd)
    ensures guids.issued >= old(guids.issued)
    ensures outcome == Done <==> RoleOf(i, settings.topSpecimenToKeep, settings.bottomSpecimenToKeep, settings.newSpecimenToAdd).Ok?
                                 && !ParentMissing(i, settings, top, bottom)
    ensures outcome.Thrown? ==> outcome == Thrown(if ParentMissing(i, settings, top, bottom) then NullReference else DivideByZero)
    ensures outcome.Thrown? ==> random.position == old(random.position)
    ensures outcome == Done ==> && x.neural != null && fresh(x.neural) && Fits(x.neural, settings.specimenSettings)
                                && x.home == home
                                && Rebuilt(x, ParametersOf(x.neural), i, home, settings, top, bottom, tops, bottoms,
                                           seeds, random.stream, start, issued)
  {
    var ss := settings.specimenSettings;
    var s := NewSpecimen(i, ss, home);
    match RoleOf(i, settings.topSpecimenToKeep, settings.bottomSpecimenToKeep, settings.newSpecimenToAdd)
    case Throws(e) =>
      x, outcome := s, Thrown(e);
    case Ok(Elite(t)) =>
      x, outcome := CopySlot(s, top[t].neural, seeds, guids);
    case Ok(Survivor(b)) =>
      x, outcome := CopySlot(s, bottom[b].neural, seeds, guids);
    case Ok(Newcomer(d)) =>
      NewcomerDraw(i, settings.topSpecimenToKeep, settings.bottomSpecimenToKeep, settings.newSpecimenToAdd);
      var seed := random.NextInt();
      x := InitializeRandom(s, seed, seeds, guids);
      outcome := Done;
    case Ok(Offspring(py, px)) =>
      x, outcome := BreedSlot(s, top[py].neural, top[px].neural, seeds, guids);
  }

  /** Slots `0 .. |built|` rebuilt, slot `j` as `built[j]` with network parameters `made[j]`. */
  ghost predicate AllRebuilt(built: seq<Specimen>, made: seq<Parameters>, homes: seq<Map>, settings: SimulationSettings,
                             top: seq<Specimen>, bottom: seq<Specimen>, tops: seq<Parameters>, bottoms: seq<Parameters>,
                             seeds: int -> (nat -> real), draws: nat -> real, start: nat, issued: nat)
    requires |top| == |tops| == settings.topSpecimenToKeep && |bottom| == |bottoms| == settings.bottomSpecimenToKeep
    requires Rng.IsSampleStream(draws)
  {
    && |built| == |made| <= |homes|
    && forall j {:trigger built[j]} | 0 <= j < |built| ::
         Rebuilt(built[j], made[j], j, homes[j], settings, top, bottom, tops, bottoms, seeds, draws, start, issued)
  }

  /** One more rebuilt slot. */
  lemma AllRebuiltSnoc(built: seq<Specimen>, made: seq<Parameters>, x: Specimen, p: Parameters, homes: seq<Map>,
                       settings: SimulationSettings, top: seq<Specimen>, bottom: seq<Specimen>,
                       tops: seq<Parameters>, bottoms: seq<Parameters>,
                       seeds: int -> (nat -> real), draws: nat -> real, start: nat, issued: nat)
    requires |top| == |tops| == settings.topSpecimenToKeep && |bottom| == |bottoms| == settings.bottomSpecimenToKeep
    requires Rng.IsSampleStream(draws) && |built| < |homes|
    requires AllRebuilt(built, made, homes, settings, top, bottom, tops, bottoms, seeds, draws, start, issued)
    requires Rebuilt(x, p, |built|, homes[|built|], settings, top, bottom, tops, bottoms, seeds, draws, start, issued)
    ensures AllRebuilt(built + [x], made + [p], homes, settings, top, bottom, tops, bottoms, seeds, draws, start, issued)
  {
    var b, m := built + [x], made + [p];
    forall j | 0 <= j < |b|
      ensures Rebuilt(b[j], m[j], j, homes[j], settings, top, bottom, tops, bottoms, seeds, draws, start, issued)
    {
      if j < |built| {
        assert b[j] == built[j] && m[j] == made[j];
      }
    }
  }

  /** The specimens `built` live on the maps `homes` and carry networks of the settings'
      shape whose parameters are `made`. */
  ghost predicate Made(built: seq<Specimen>, made: seq<Parameters>, homes: seq<Map>, ss: SpecimenSettings)
    reads NetworksOf(built)
  {
    && |built| == |made| <= |homes|
    && forall j {:trigger built[j]} | 0 <= j < |built| ::
         && built[j].neural != null && built[j].home == homes[j]
         && Fits(built[j].neural, ss) && ParametersOf(built[j].neural) == made[j]
  }

  /** One more specimen carrying a network of the settings' shape. */
  lemma MadeSnoc(built: seq<Specimen>, made: seq<Parameters>, x: Specimen, p: Parameters, homes: seq<Map>, ss: SpecimenSettings)
    requires Made(built, made, homes, ss) && |built| < |homes|
    requires x.neural != null && x.home == homes[|built|] && Fits(x.neural, ss) && ParametersOf(x.neural) == p
    ensures Made(built + [x], made + [p], homes, ss)
  {
    var b, m := built + [x], made + [p];
    forall j | 0 <= j < |b|
      ensures b[j].neural != null && b[j].home == homes[j] && Fits(b[j].neural, ss) && ParametersOf(b[j].neural) == m[j]
    {
      if j < |built| {
        assert b[j] == built[j] && m[j] == made[j];
      }
    }
  }

  /** `RebuildSlot` for the slot after the rebuilt slots `done`. */
  method RebuildNext(done: seq<Specimen>, ghost made: seq<Parameters>, maps: array<Map>, settings: SimulationSettings,
                     top: seq<Specimen>, bottom: seq<Specimen>, random: Rng.Random, seeds: int -> (nat -> real),
                     guids: GuidSource, ghost nets: set<DenseNetwork.NeuralNetwork>,
                     ghost tops: seq<Parameters>, ghost bottoms: seq<Parameters>, ghost start: nat, ghost issued: nat)
    returns (x: Specimen, outcome: Outcome)
    requires Parents(settings, top, bottom, nets) && Rng.IsSeeding(seeds) && random.Valid()
    requires tops == ParentsOf(top) && bottoms == ParentsOf(bottom)
    requires |done| < maps.Length
    requires random.position == start + DrawsBefore(|done|, settings.topSpecimenToKeep, settings.bottomSpecimenToKeep, settings.newSpecimenToAdd)
    requires issued <= guids.issued
    requires AllRebuilt(done, made, maps[..], settings, top, bottom, tops, bottoms, seeds, random.stream, start, issued)
    requires Made(done, made, maps[..], settings.specimenSettings)
    modifies random, guids
    ensures random.position == start + DrawsBefore(|done| + 1, settings.topSpecimenToKeep, settings.bottomSpecimenToKeep, settings.newSpecimenToAdd)
    ensures guids.issued >= old(guids.issued)
    ensures outcome.Thrown? ==> outcome == Thrown(if ParentMissing(|done|, settings, top, bottom) then NullReference else DivideByZero)
    ensures outcome.Thrown? ==> RoleOf(|done|, settings.topSpecimenToKeep, settings.bottomSpecimenToKeep, settings.newSpecimenToAdd).Throws?
                                || ParentMissing(|done|, settings, top, bottom)
    ensures outcome.Thrown? ==> random.position == old(random.position)
    ensures outcome == Done ==> && x.neural != null && fresh(x.neural)
                                && Made(done + [x], made + [ParametersOf(x.neural)], maps[..], settings.specimenSettings)
                                && AllRebuilt(done + [x], made + [ParametersOf(x.neural)], maps[..], settings, top, bottom,
                                              tops, bottoms, seeds, random.stream, start, issued)
    ensures outcome.Thrown? ==> Made(done, made, maps[..], settings.specimenSettings)
  {
    x, outcome := RebuildSlot(|done|, maps[|done|], settings, top, bottom, random, seeds, guids, nets, tops, bottoms, start, issued);
    if outcome == Done {
      AllRebuiltSnoc(done, made, x, ParametersOf(x.neural), maps[..], settings, top, bottom, tops, bottoms,
                     seeds, random.stream, start, issued);
      MadeSnoc(done, made, x, ParametersOf(x.neural), maps[..], settings.specimenSettings);
    }
  }

  /** The loop of `ResetSpecimen`: slot after slot, a new specimen on the slot's map, until
      the first exception. The new specimens are `built`, their networks' parameters `made`. */
  method RebuildSlots(maps: array<Map>, settings: SimulationSettings, top: seq<Specimen>, bottom: seq<Specimen>,
                      random: Rng.Random, seeds: int -> (nat -> real), guids: GuidSource,
                      ghost nets: set<DenseNetwork.NeuralNetwork>)
    returns (outcome: Outcome, built: seq<Specimen>, ghost made: seq<Parameters>)
    requires Parents(settings, top, bottom, nets) && Rng.IsSeeding(seeds) && random.Valid()
    modifies random, guids
    ensures |built| == |made| <= maps.Length
    ensures outcome == Done <==> |built| == maps.Length
    ensures outcome.Thrown? ==> outcome == Thrown(if ParentMissing(|built|, settings, top, bottom) then NullReference else DivideByZero)
    ensures outcome.Thrown? ==> RoleOf(|built|, settings.topSpecimenToKeep, settings.bottomSpecimenToKeep, settings.newSpecimenToAdd).Throws?
                                || ParentMissing(|built|, settings, top, bottom)
    ensures random.position == old(random.position)
                               + DrawsBefore(|built|, settings.topSpecimenToKeep, settings.bottomSpecimenToKeep, settings.newSpecimenToAdd)
    ensures guids.issued >= old(guids.issued)
    ensures ParentsOf(top) == old(ParentsOf(top)) && ParentsOf(bottom) == old(ParentsOf(bottom))
    ensures Made(built, made, maps[..], settings.specimenSettings)
    ensures forall j | 0 <= j < |built| :: built[j].neural != null && fresh(built[j].neural)
    ensures AllRebuilt(built, made, maps[..], settings, top, bottom, ParentsOf(top), ParentsOf(bottom),
                       seeds, random.stream, old(random.position), old(guids.issued))
  {
    ghost var start, issued := random.position, guids.issued;
    ghost var tops, bottoms := ParentsOf(top), ParentsOf(bottom);
    built, made := [], [];
    outcome := Done;
    while |built| < maps.Length
      invariant |built| == |made| <= maps.Length && random.Valid()
      invariant random.position == start + DrawsBefore(|built|, settings.topSpecimenToKeep, settings.bottomSpecimenToKeep, settings.newSpecimenToAdd)
      invariant guids.issued >= issued
      invariant tops == ParentsOf(top) && bottoms == ParentsOf(bottom)
      invariant Made(built, made, maps[..], settings.specimenSettings)
      invariant forall j | 0 <= j < |built| :: built[j].neural != null && fresh(built[j].neural)
      invariant AllRebuilt(built, made, maps[..], settings, top, bottom, tops, bottoms, seeds, random.stream, start, issued)
    {
      var x, o := RebuildNext(built, made, maps, settings, top, bottom, random, seeds, guids, nets, tops, bottoms, start, issued);
      if o.Thrown? {
        outcome := o;
        break;
      }
      built, made := built + [x], made + [ParametersOf(x.neural)];
    }
  }

  /** `ResetSpecimen`'s effect on the population, as values: slots are rebuilt in order from
      the front of `before` into `after`, each by `AllRebuilt` from `top`, `bottom`, their
      parameters `tops` and `bottoms`, with `homes` as maps and generator `draws` from
      `start` to `finish`; an exception stops it at the slot that throws. */
  ghost predicate Repopulation(settings: SimulationSettings, before: seq<Specimen>, after: seq<Specimen>,
                               top: seq<Specimen>, bottom: seq<Specimen>, outcome: Outcome,
                               built: seq<Specimen>, made: seq<Parameters>, homes: seq<Map>,
                               tops: seq<Parameters>, bottoms: seq<Parameters>,
                               seeds: int -> (nat -> real), draws: nat -> real, start: nat, finish: nat, issued: nat)
  {
    && |top| == |tops| == settings.topSpecimenToKeep && |bottom| == |bottoms| == settings.bottomSpecimenToKeep
    && |built| == |made| <= |before|
    && after == built + before[|built|..]
    && (outcome == Done <==> |built| == |before|)
    && Rng.IsSampleStream(draws)
    && AllRebuilt(built, made, homes, settings, top, bottom, tops, bottoms, seeds, draws, start, issued)
    && finish == start + DrawsBefore(|built|, settings.topSpecimenToKeep, settings.bottomSpecimenToKeep, settings.newSpecimenToAdd)
    && (outcome.Thrown? ==> && outcome == Thrown(if ParentMissing(|built|, settings, top, bottom) then NullReference else DivideByZero)
                            && (RoleOf(|built|, settings.topSpecimenToKeep, settings.bottomSpecimenToKeep, settings.newSpecimenToAdd).Throws?
                                || ParentMissing(|built|, settings, top, bottom)))
  }

  /** `ResetSpecimen`: the slots the loop reached hold their new specimens, in order; the
      slots from the one that threw on keep the old specimens. */
  method Rebuild(specimen: array<Specimen>, maps: array<Map>, settings: SimulationSettings,
                 top: seq<Specimen>, bottom: seq<Specimen>, random: Rng.Random,
                 seeds: int -> (nat -> real), guids: GuidSource, ghost nets: set<DenseNetwork.NeuralNetwork>)
    returns (outcome: Outcome, ghost built: seq<Specimen>, ghost made: seq<Parameters>)
    requires Parents(settings, top, bottom, nets) && Rng.IsSeeding(seeds) && random.Valid()
    requires specimen.Length == maps.Length
    modifies specimen, random, guids
    ensures Repopulation(settings, old(specimen[..]), specimen[..], top, bottom, outcome, built, made, maps[..],
                         old(ParentsOf(top)), old(ParentsOf(bottom)), seeds, random.stream,
                         old(random.position), random.position, old(guids.issued))
    ensures guids.issued >= old(guids.issued)
    ensures Made(built, made, maps[..], settings.specimenSettings)
    ensures forall j | 0 <= j < |built| :: built[j].neural != null && fresh(built[j].neural)
  {
    var done;
    outcome, done, made := RebuildSlots(maps, settings, top, bottom, random, seeds, guids, nets);
    WriteFront(specimen, done);
    built := done;
  }

  /** Slot `i` of a new population: `new Specimen(i, settings, home)` with a new network of
      the settings' shape, seeded from `stream` and given Id `id`. */
  ghost predicate Seeded(x: Specimen, i: nat, home: Map, ss: SpecimenSettings, stream: nat -> real, id: nat)
    reads x.neural
  {
    && x == NewSpecimen(i, ss, home).(neural := x.neural)
    && x.neural != null && Fits(x.neural, ss)
    && x.neural.random.stream == stream && x.neural.id == Guid(id)
  }

  /** The specimens `GenerateNewSpecimen` puts in the first `|done|` slots: slot `j` gets a
      network seeded with the `j`-th draw after `start` from `stream` and the `j`-th Guid
      after `issued`. */
  ghost predicate AllSeeded(done: seq<Specimen>, homes: seq<Map>, ss: SpecimenSettings,
                            seeds: int -> (nat -> real), stream: nat -> real, start: nat, issued: nat)
    reads NetworksOf(done)
  {
    && |done| <= |homes| && Rng.IsSampleStream(stream)
    && forall j {:trigger done[j]} | 0 <= j < |done| ::
         && done[j].neural != null
         && Seeded(done[j], j, homes[j], ss, seeds(Rng.Below(stream(start + j), Rng.IntMaxValue)), issued + j + 1)
  }

  lemma AllSeededSnoc(done: seq<Specimen>, x: Specimen, homes: seq<Map>, ss: SpecimenSettings,
                      seeds: int -> (nat -> real), stream: nat -> real, start: nat, issued: nat)
    requires AllSeeded(done, homes, ss, seeds, stream, start, issued) && |done| < |homes|
    requires x.neural != null && Rng.IsSampleStream(stream)
    requires Seeded(x, |done|, homes[|done|], ss, seeds(Rng.Below(stream(start + |done|), Rng.IntMaxValue)), issued + |done| + 1)
    ensures AllSeeded(done + [x], homes, ss, seeds, stream, start, issued)
  {
    var d := done + [x];
    forall j | 0 <= j < |d|
      ensures d[j].neural != null
      ensures Seeded(d[j], j, homes[j], ss, seeds(Rng.Below(stream(start + j), Rng.IntMaxValue)), issued + j + 1)
    {
      if j < |done| {
        assert d[j] == done[j];
      }
    }
  }

  /** One slot of `GenerateNewSpecimen`: `new Specimen(i, settings, home)` given a network
      seeded with the next `Next()` of `random` and the next Guid. */
  method NewSeeded(i: nat, home: Map, ss: SpecimenSettings, random: Rng.Random,
                   seeds: int -> (nat -> real), guids: GuidSource) returns (s: Specimen)
    requires random.Valid() && Rng.IsSeeding(seeds) && |ss.layerSizes| >= 1
    modifies random, guids
    ensures random.position == old(random.position) + 1 && guids.issued == old(guids.issued) + 1
    ensures s.neural != null && fresh(s.neural)
    ensures Seeded(s, i, home, ss, seeds(Rng.Below(random.stream(old(random.position)), Rng.IntMaxValue)), guids.issued)
  {
    var x := NewSpecimen(i, ss, home);
    var seed := random.NextInt();
    s := InitializeRandom(x, seed, seeds, guids);
  }

  /** Slot `i` of `GenerateNewSpecimen`, after the slots before it. */
  method PopulateSlot(specimen: array<Specimen>, i: nat, maps: array<Map>, ss: SpecimenSettings, random: Rng.Random,
                      seeds: int -> (nat -> real), guids: GuidSource, ghost start: nat, ghost issued: nat)
    requires i < specimen.Length == maps.Length && random.Valid() && Rng.IsSeeding(seeds) && |ss.layerSizes| >= 1
    requires random.position == start + i && guids.issued == issued + i
    requires AllSeeded(specimen[..i], maps[..], ss, seeds, random.stream, start, issued)
    modifies specimen, random, guids
    ensures random.position == start + i + 1 && guids.issued == issued + i + 1
    ensures AllSeeded(specimen[..i + 1], maps[..], ss, seeds, random.stream, start, issued)
    ensures specimen[i].neural != null && fresh(specimen[i].neural)
    ensures forall j | 0 <= j < specimen.Length && j != i :: specimen[j] == old(specimen[j])
  {
    ghost var done := specimen[..i];
    var s := NewSeeded(i, maps[i], ss, random, seeds, guids);
    specimen[i] := s;
    AllSeededSnoc(done, s, maps[..], ss, seeds, random.stream, start, issued);
    assert specimen[..i + 1] == done + [s];
  }

  /** `GenerateNewSpecimen`: slot `i` gets a specimen whose network is seeded with the
      `i`-th `Next()` of `random`. */
  method Populate(specimen: array<Specimen>, maps: array<Map>, ss: SpecimenSettings, random: Rng.Random,
                  seeds: int -> (nat -> real), guids: GuidSource)
    requires specimen.Length == maps.Length && random.Valid() && Rng.IsSeeding(seeds) && |ss.layerSizes| >= 1
    modifies specimen, random, guids
    ensures random.position == old(random.position) + specimen.Length
    ensures guids.issued == old(guids.issued) + specimen.Length
    ensures AllSeeded(specimen[..], maps[..], ss, seeds, random.stream, old(random.position), old(guids.issued))
    ensures forall i | 0 <= i < specimen.Length :: fresh(specimen[i].neural)
  {
    ghost var start, issued := random.position, guids.issued;
    var i := 0;
    while i < specimen.Length
      invariant 0 <= i <= specimen.Length && random.Valid()
      invariant random.position == start + i && guids.issued == issued + i
      invariant AllSeeded(specimen[..i], maps[..], ss, seeds, random.stream, start, issued)
      invariant forall j | 0 <= j < i :: fresh(specimen[j].neural)
    {
      PopulateSlot(specimen, i, maps, ss, random, seeds, guids, start, issued);
      i := i + 1;
    }
    assert specimen[..] == specimen[..i];
  }

  // ----- A tick -----

  /** The slot that `CustomUpdate` drives by hand instead of by its network. */
  const HandWrittenSlot: nat := 10

  /** Every activation buffer of the networks `nets`. */
  ghost function Buffers(nets: set<DenseNetwork.NeuralNetwork>): set<array<real>>
  {
    set n, l | n in nets && 0 <= l < |n.activations| :: n.activations[l]
  }

  /** The specimens can be updated: each has a well formed network of `nets` and a map of
      `foods`. */
  ghost predicate Updatable(specimen: seq<Specimen>, nets: set<DenseNetwork.NeuralNetwork>, foods: set<array<Food>>)
    reads nets
  {
    && (forall i | 0 <= i < |specimen| ::
          && specimen[i].neural != null && specimen[i].neural in nets
          && specimen[i].home != null && specimen[i].home.food in foods)
    && (forall n | n in nets :: n.Valid())
  }

  /** What slot `i` of the `Parallel.For` of `CustomUpdate` does to specimen `s`, as values:
      its network has the parameters `p` and held `input` in its input buffer, and its map's
      food goes from `before` to `after`. Slot `HandWrittenSlot` heads straight for the
      nearest valid food and throws when there is none; every other slot writes the angles to
      the nearest valid food into its input buffer, runs its network, turns by its first
      output times 360 degrees and throws when the output layer is empty. Either way a slot
      that gets as far as moving then tries to eat its target. */
  ghost predicate SlotUpdated(s: Specimen, i: nat, trig: Trig, p: Parameters, input: seq<real>, before: seq<Food>,
                              r: Specimen, outcome: Outcome, after: seq<Food>)
  {
    if i == HandWrittenSlot then
      var ranking := Nearest(before, s.position, 1);
      if ranking == [] then r == s && outcome == Thrown(InvalidOperation) && after == before
      else
        var target := ConsumeTarget(before, ranking);
        && outcome == Done
        && Eaten(s, trig, trig.signedAngle(Sub(target.food.position, s.position), Right, Up), target, before, r, outcome, after)
    else
      && Layers.Shaped(p.sizes, p.weights, p.biases) && |input| == p.sizes[0]
      && var ranking := Nearest(before, s.position, p.sizes[0]);
         var last := |p.sizes| - 1;
         if p.sizes[last] == 0 then r == s && outcome == Thrown(IndexOutOfRange) && after == before
         else
           var outputs := Layers.Outputs(p.sizes, p.weights, p.biases, Sighted(input, before, ranking, s.position, trig), true);
           Eaten(s, trig, outputs[last][0] * 360.0, ConsumeTarget(before, ranking), before, r, outcome, after)
  }

  /** Whatever a slot does, the specimen stays the same specimen. */
  lemma SlotPersists(s: Specimen, i: nat, trig: Trig, p: Parameters, input: seq<real>, before: seq<Food>,
                     r: Specimen, outcome: Outcome, after: seq<Food>)
    requires SlotUpdated(s, i, trig, p, input, before, r, outcome, after)
    ensures Persists(s, r)
  {
    if i == HandWrittenSlot {
      var ranking := Nearest(before, s.position, 1);
      if ranking != [] {
        var target := ConsumeTarget(before, ranking);
        EatenPersists(s, trig, trig.signedAngle(Sub(target.food.position, s.position), Right, Up), target,
                      before, r, outcome, after);
      }
    } else {
      var ranking := Nearest(before, s.position, p.sizes[0]);
      var last := |p.sizes| - 1;
      if p.sizes[last] > 0 {
        var outputs := Layers.Outputs(p.sizes, p.weights, p.biases, Sighted(input, before, ranking, s.position, trig), true);
        EatenPersists(s, trig, outputs[last][0] * 360.0, ConsumeTarget(before, ranking), before, r, outcome, after);
      }
    }
  }

  /** One iteration of the `Parallel.For` of `CustomUpdate`: slot `HandWrittenSlot` runs
      `CustomUpdateSimple`, every other slot `CustomUpdate`. */
  method UpdateSlot(s: Specimen, i: nat, trig: Trig) returns (r: Specimen, outcome: Outcome)
    requires s.neural != null && s.neural.Valid() && s.home != null
    modifies s.neural.activations[0], s.neural.LayerBuffers(), s.home.food
    ensures SlotUpdated(s, i, trig, ParametersOf(s.neural), old(s.neural.activations[0][..]), old(s.home.food[..]),
                        r, outcome, s.home.food[..])
  {
    if i == HandWrittenSlot {
      r, outcome := CustomUpdateSimple(s, trig);
    } else {
      ghost var input, before := s.neural.activations[0][..], s.home.food[..];
      r, outcome := CustomUpdate(s, trig);
      ghost var net := s.neural;
      ghost var last := |net.sizes| - 1;
      if net.sizes[last] > 0 {
        ghost var ranking := Nearest(before, s.position, net.sizes[0]);
        ghost var outputs := Layers.Outputs(net.sizes, net.weights, net.biases, Sighted(input, before, ranking, s.position, trig), true);
        assert net.activations[0][..] == Sighted(input, before, ranking, s.position, trig) == outputs[0];
        assert net.activations[last][..] == outputs[last];
      }
    }
  }

  /** What a slot of the loop saw and left: the input buffer of its network and its map's
      food before the update, the food after it, and how it ended. */
  datatype SlotStep = SlotStep(input: seq<real>, before: seq<Food>, after: seq<Food>, outcome: Outcome)

  /** The slots ended as `steps` say, and the loop as the last of them: every slot but the
      last finished. */
  ghost predicate Chained(steps: seq<SlotStep>, outcome: Outcome)
  {
    && (forall k | 0 <= k < |steps| - 1 :: steps[k].outcome == Done)
    && (|steps| > 0 ==> steps[|steps| - 1].outcome == outcome)
  }

  /** One more finished slot. */
  lemma ChainedSnoc(steps: seq<SlotStep>, step: SlotStep)
    requires Chained(steps, Done)
    ensures Chained(steps + [step], step.outcome)
  {
  }

  /** No two specimens of `population` share a map's food. */
  ghost predicate OwnFood(population: seq<Specimen>)
  {
    forall i, j | 0 <= i < j < |population| && population[i].home != null && population[j].home != null ::
      population[i].home.food != population[j].home.food
  }

  /** The food of the specimens' maps, specimen by specimen. */
  ghost function HomeFood(population: seq<Specimen>): (r: seq<seq<Food>>)
    reads set k | 0 <= k < |population| && population[k].home != null :: population[k].home.food
    ensures |r| == |population|
    ensures forall k | 0 <= k < |population| && population[k].home != null :: r[k] == population[k].home.food[..]
  {
    seq(|population|, k requires 0 <= k < |population|
                        reads set k | 0 <= k < |population| && population[k].home != null :: population[k].home.food =>
          if population[k].home != null then population[k].home.food[..] else [])
  }

  /** The first `|steps|` slots of the `Parallel.For` of `CustomUpdate`, as values: the
      specimens `before` on maps holding `food` became `after` on maps holding `food'`, where
      `params` are the parameters of the specimens' networks. Slot `k` below `|steps|` went
      through `steps[k]`; the other specimens and their maps are as they were. */
  ghost predicate SweptUpTo(before: seq<Specimen>, food: seq<seq<Food>>, after: seq<Specimen>, food': seq<seq<Food>>,
                            trig: Trig, params: seq<Parameters>, steps: seq<SlotStep>)
  {
    && |before| == |food| == |after| == |food'| == |params|
    && |steps| <= |before|
    && (forall k {:trigger steps[k]} | 0 <= k < |steps| ::
          && steps[k].before == food[k] && steps[k].after == food'[k]
          && SlotUpdated(before[k], k, trig, params[k], steps[k].input, food[k], after[k], steps[k].outcome, food'[k]))
    && (forall k | |steps| <= k < |before| :: after[k] == before[k] && food'[k] == food[k])
  }

  /** One more slot updated. */
  lemma SweptUpToSnoc(before: seq<Specimen>, food: seq<seq<Food>>, after: seq<Specimen>, food': seq<seq<Food>>,
                      trig: Trig, params: seq<Parameters>, steps: seq<SlotStep>, step: SlotStep, r: Specimen)
    requires SweptUpTo(before, food, after, food', trig, params, steps) && |steps| < |before|
    requires step.before == food[|steps|]
    requires SlotUpdated(before[|steps|], |steps|, trig, params[|steps|], step.input, step.before, r, step.outcome, step.after)
    ensures SweptUpTo(before, food, after[|steps| := r], food'[|steps| := step.after], trig, params, steps + [step])
  {
    var i := |steps|;
    var a, f, t := after[i := r], food'[i := step.after], steps + [step];
    forall k | 0 <= k < |t|
      ensures && t[k].before == food[k] && t[k].after == f[k]
              && SlotUpdated(before[k], k, trig, params[k], t[k].input, food[k], a[k], t[k].outcome, f[k])
    {
      if k < i {
        assert t[k] == steps[k] && a[k] == after[k] && f[k] == food'[k];
      }
    }
  }

  /** However far the loop got, every specimen stays the same specimen. */
  lemma SweptPersists(before: seq<Specimen>, food: seq<seq<Food>>, after: seq<Specimen>, food': seq<seq<Food>>,
                      trig: Trig, params: seq<Parameters>, steps: seq<SlotStep>)
    requires SweptUpTo(before, food, after, food', trig, params, steps)
    ensures forall k | 0 <= k < |before| :: Persists(before[k], after[k])
  {
    forall k | 0 <= k < |before|
      ensures Persists(before[k], after[k])
    {
      if k < |steps| {
        SlotPersists(before[k], k, trig, params[k], steps[k].input, food[k], after[k], steps[k].outcome, food'[k]);
      }
    }
  }

  /** Specimen `k` living on map `k`, the food of the maps is the food of the specimens'
      homes, and no two specimens share it when no two maps do. */
  lemma HomesFood(population: seq<Specimen>, maps: seq<Map>, foods: set<array<Food>>)
    requires |population| == |maps|
    requires forall k | 0 <= k < |maps| :: population[k].home == maps[k] && maps[k].food in foods
    requires forall i, j | 0 <= i < j < |maps| :: maps[i].food != maps[j].food
    ensures FoodOf(maps, foods) == HomeFood(population)
    ensures OwnFood(population)
  {
  }

  /** The whole `Parallel.For` of `CustomUpdate`, as values: slot `k` below `updated` went
      through `steps[k]` (the last of them may have thrown part way), and all slots were
      updated unless one threw. */
  ghost predicate Swept(before: seq<Specimen>, food: seq<seq<Food>>, after: seq<Specimen>, food': seq<seq<Food>>,
                        trig: Trig, params: seq<Parameters>, updated: nat, steps: seq<SlotStep>, outcome: Outcome)
  {
    && updated == |steps|
    && SweptUpTo(before, food, after, food', trig, params, steps)
    && (outcome == Done ==> updated == |before|)
    && (outcome.Thrown? ==> updated > 0)
    && Chained(steps, outcome)
  }

  /** The slot after the updated ones: `UpdateSlot` on the specimen `pop[i]` it still holds,
      stored back into the slot. Only that slot and its map's food change. */
  method UpdateNext(specimen: array<Specimen>, i: nat, trig: Trig, ghost nets: set<DenseNetwork.NeuralNetwork>,
                    ghost foods: set<array<Food>>, ghost pop: seq<Specimen>, ghost params: seq<Parameters>)
    returns (outcome: Outcome, ghost step: SlotStep)
    requires i < specimen.Length == |pop| == |params| && specimen[i] == pop[i]
    requires Updatable(specimen[..], nets, foods) && OwnFood(pop) && Describes(params, pop)
    requires forall k | 0 <= k < |pop| :: pop[k].home != null
    modifies specimen, Buffers(nets), foods
    ensures specimen[..] == old(specimen[..])[i := specimen[i]]
    ensures Updatable(specimen[..], nets, foods)
    ensures step.outcome == outcome && step.before == old(HomeFood(pop))[i]
    ensures HomeFood(pop) == old(HomeFood(pop))[i := step.after]
    ensures SlotUpdated(pop[i], i, trig, params[i], step.input, step.before, specimen[i], outcome, step.after)
  {
    var s := specimen[i];
    assert s == specimen[..][i];
    ghost var input, before := s.neural.activations[0][..], s.home.food[..];
    var r;
    r, outcome := UpdateSlot(s, i, trig);
    SlotPersists(s, i, trig, params[i], input, before, r, outcome, s.home.food[..]);
    step := SlotStep(input, before, s.home.food[..], outcome);
    specimen[i] := r;
  }

  /** The `Parallel.For` of `CustomUpdate`, each specimen stored back into its slot, the
      slots visited in order until the first exception. */
  method UpdateSpecimens(specimen: array<Specimen>, trig: Trig, ghost nets: set<DenseNetwork.NeuralNetwork>,
                         ghost foods: set<array<Food>>, ghost params: seq<Parameters>)
    returns (outcome: Outcome, ghost updated: nat, ghost steps: seq<SlotStep>)
    requires Updatable(specimen[..], nets, foods) && OwnFood(specimen[..])
    requires Describes(params, specimen[..])
    modifies specimen, Buffers(nets), foods
    ensures Swept(old(specimen[..]), old(HomeFood(specimen[..])), specimen[..], HomeFood(old(specimen[..])),
                  trig, params, updated, steps, outcome)
    ensures Updatable(specimen[..], nets, foods)
  {
    ghost var pop, food := specimen[..], HomeFood(specimen[..]);
    var i := 0;
    steps, outcome := [], Done;
    while i < specimen.Length && outcome == Done
      invariant 0 <= i <= specimen.Length && |steps| == i
      invariant Updatable(specimen[..], nets, foods)
      invariant Chained(steps, outcome) && (outcome.Thrown? ==> i > 0)
      invariant SweptUpTo(pop, food, specimen[..], HomeFood(pop), trig, params, steps)
    {
      ghost var after, food' := specimen[..], HomeFood(pop);
      assert specimen[i] == pop[i];
      var o, step := UpdateNext(specimen, i, trig, nets, foods, pop, params);
      SweptUpToSnoc(pop, food, after, food', trig, params, steps, step, specimen[i]);
      ChainedSnoc(steps, step);
      steps := steps + [step];
      i, outcome := i + 1, o;
    }
    updated := i;
  }

  // ----- The simulation -----

  /** What a reset reads and changes, as values: the population, the top and bottom
      specimens, the food of every map, the counters, the best score and how far the
      generator and the Guid source have got. */
  datatype Stage = Stage(population: seq<Specimen>, top: seq<Specimen>, bottom: seq<Specimen>,
                         food: seq<seq<Food>>, frame: int, generation: int, maxScore: real,
                         position: nat, issued: nat)

  /** The food of the maps `ms`, map by map. */
  ghost function FoodOf(ms: seq<Map>, foods: set<array<Food>>): (r: seq<seq<Food>>)
    reads foods
    ensures |r| == |ms|
    ensures forall i | 0 <= i < |ms| && ms[i].food in foods :: r[i] == ms[i].food[..]
  {
    seq(|ms|, i requires 0 <= i < |ms| reads foods => if ms[i].food in foods then ms[i].food[..] else [])
  }

  /** `SelectTopSpecimen`, `SelectBottomSpecimen` and `SaveTopSpecimen` in a row, from stage
      `s` to stage `t`, where `keyed` is the keyed pool of `s`: a pool with a specimen
      without a network stops it before anything changes; otherwise the best of the pool
      and the worst of the population are written to the front of the top and the bottom
      specimens, and the best score is ratcheted. */
  ghost predicate Selected(s: Stage, t: Stage, keyed: Result<seq<Keyed<Specimen>>>, outcome: Outcome)
  {
    && t.population == s.population && t.food == s.food && t.frame == s.frame && t.generation == s.generation
    && t.position == s.position && t.issued == s.issued
    && match keyed
       case Throws(_) => outcome == Thrown(NullReference) && t.top == s.top && t.bottom == s.bottom && t.maxScore == s.maxScore
       case Ok(k) =>
         && (var top := Items(SelectTop(k, |s.top|)); |top| <= |s.top| && t.top == top + s.top[|top|..])
         && (var bottom := SelectBottom(s.population, |s.bottom|); |bottom| <= |s.bottom| && t.bottom == bottom + s.bottom[|bottom|..])
         && match Ratchet(s.maxScore, t.top)
            case Throws(e) => outcome == Thrown(e) && t.maxScore == s.maxScore
            case Ok(v) => outcome == Done && t.maxScore == v
  }

  /** `ResetSpecimen`, from stage `s` to stage `t`: the population is rebuilt slot by slot
      from the parents of `s`, whose networks have the parameters `tops` and `bottoms`, with
      `homes` as their maps and generator `draws`; an exception stops it at the slot that
      throws. Nothing but the population and the two sources changes. */
  ghost predicate Repopulated(settings: SimulationSettings, s: Stage, t: Stage, outcome: Outcome,
                          built: seq<Specimen>, made: seq<Parameters>, homes: seq<Map>,
                          tops: seq<Parameters>, bottoms: seq<Parameters>,
                          seeds: int -> (nat -> real), draws: nat -> real)
  {
    && t == s.(population := t.population, position := t.position, issued := t.issued)
    && Repopulation(settings, s.population, t.population, s.top, s.bottom, outcome, built, made, homes,
                    tops, bottoms, seeds, draws, s.position, t.position, s.issued)
  }

  /** `ResetMapState` and the new generation's counters, from stage `s` to stage `t`: every
      map gets its food back and the frame count starts again in the next generation. */
  ghost predicate Started(settings: SimulationSettings, s: Stage, t: Stage)
  {
    && t == s.(food := t.food, frame := 0, generation := s.generation + 1)
    && |t.food| == |s.food|
    && forall i | 0 <= i < |s.food| ::
         settings.foodCount <= |s.food[i]| && t.food[i] == ReactivatedPrefix(s.food[i], settings.foodCount)
  }

  /** The population rebuilt from `s` to `reset`, and then, unless that threw, from `reset`
      to `t` the food back and a new generation. */
  ghost predicate Renewed(settings: SimulationSettings, s: Stage, reset: Stage, t: Stage, outcome: Outcome,
                          built: seq<Specimen>, made: seq<Parameters>, homes: seq<Map>,
                          tops: seq<Parameters>, bottoms: seq<Parameters>,
                          seeds: int -> (nat -> real), draws: nat -> real)
  {
    && Repopulated(settings, s, reset, outcome, built, made, homes, tops, bottoms, seeds, draws)
    && (outcome.Thrown? ==> t == reset)
    && (outcome == Done ==> Started(settings, reset, t))
  }

  /** The `Parallel.For` of `CustomUpdate`, from stage `s` to stage `t`: the population
      and the food of its maps, map `k` being specimen `k`'s, went as `Swept` says, and
      nothing else changed. */
  ghost predicate Updated(s: Stage, t: Stage, trig: Trig, params: seq<Parameters>, updated: nat,
                          steps: seq<SlotStep>, outcome: Outcome)
  {
    && t == s.(population := t.population, food := t.food)
    && Swept(s.population, s.food, t.population, t.food, trig, params, updated, steps, outcome)
  }

  /** The loop's effect on the population and the maps is the update of the whole stage. */
  lemma SweptUpdated(s: Stage, t: Stage, before: seq<Specimen>, food: seq<seq<Food>>, after: seq<Specimen>,
                     food': seq<seq<Food>>, trig: Trig, params: seq<Parameters>, updated: nat,
                     steps: seq<SlotStep>, outcome: Outcome)
    requires s.population == before && s.food == food && t == s.(population := after, food := food')
    requires Swept(before, food, after, food', trig, params, updated, steps, outcome)
    ensures Updated(s, t, trig, params, updated, steps, outcome)
  {
  }

  /** An update keeps every specimen: only positions and scores change, and a score at
      most by one meal. */
  lemma UpdatedPersists(s: Stage, t: Stage, trig: Trig, params: seq<Parameters>, updated: nat,
                        steps: seq<SlotStep>, outcome: Outcome)
    requires Updated(s, t, trig, params, updated, steps, outcome)
    ensures forall k | 0 <= k < |s.population| :: Persists(s.population[k], t.population[k])
  {
    forall k | 0 <= k < |s.population|
      ensures Persists(s.population[k], t.population[k])
    {
      if k < updated {
        SlotPersists(s.population[k], k, trig, params[k], steps[k].input, s.food[k],
                     t.population[k], steps[k].outcome, t.food[k]);
      }
    }
  }

  /** `CustomUpdate` after `Frame++` has made stage `advanced`, ending in stage `t`: a
      generation length of 0 throws on the remainder; a frame it divides resets the
      simulation, selecting the parents from the `keyed` pool into stage `middle` and then
      renewing it through stage `rebuilt`; any other frame updates the specimens. */
  ghost predicate Ticked(settings: SimulationSettings, advanced: Stage, t: Stage, outcome: Outcome, reset: bool,
                         trig: Trig, params: seq<Parameters>, updated: nat, steps: seq<SlotStep>, keyed: Result<seq<Keyed<Specimen>>>, middle: Stage, selected: Outcome,
                         rebuilt: Stage, built: seq<Specimen>, made: seq<Parameters>, homes: seq<Map>,
                         tops: seq<Parameters>, bottoms: seq<Parameters>,
                         seeds: int -> (nat -> real), draws: nat -> real)
  {
    && (reset <==> settings.generationLengthFrames != 0 && advanced.frame % settings.generationLengthFrames == 0)
    && (settings.generationLengthFrames == 0 ==> outcome == Thrown(DivideByZero) && t == advanced)
    && (reset ==> && Selected(advanced, middle, keyed, selected)
                  && (selected.Thrown? ==> outcome == selected && t == middle)
                  && (selected == Done ==> Renewed(settings, middle, rebuilt, t, outcome, built, made, homes,
                                                   tops, bottoms, seeds, draws)))
    && (!reset && settings.generationLengthFrames != 0 ==> Updated(advanced, t, trig, params, updated, steps, outcome))
  }

  /** The top selection takes specimens of the pool, so their networks are among those of
      the population and the previous top specimens. */
  lemma SelectedFromPool(specimen: seq<Specimen>, top: seq<Specimen>, generation: int,
                         keyed: seq<Keyed<Specimen>>, count: nat, nets: set<DenseNetwork.NeuralNetwork>)
    requires KeyPool(Pool(specimen, top, generation)) == Ok(keyed)
    requires forall i | 0 <= i < |specimen| :: specimen[i].neural == null || specimen[i].neural in nets
    requires forall i | 0 <= i < |top| :: top[i].neural == null || top[i].neural in nets
    ensures |Items(SelectTop(keyed, count))| <= count
    ensures forall k | 0 <= k < |SelectTop(keyed, count)| ::
              SelectTop(keyed, count)[k].item.neural == null || SelectTop(keyed, count)[k].item.neural in nets
  {
    var pool := Pool(specimen, top, generation);
    TopAreDistinct(keyed, count);
    forall k | 0 <= k < |SelectTop(keyed, count)|
      ensures SelectTop(keyed, count)[k].item.neural == null || SelectTop(keyed, count)[k].item.neural in nets
    {
      var x := SelectTop(keyed, count)[k];
      assert x in keyed;
      var i :| 0 <= i < |keyed| && keyed[i] == x;
      assert x.item == pool[i];
      if i >= |specimen| {
        assert pool[i] == top[i - |specimen|];
      }
    }
  }

  /** The bottom selection takes specimens of the population. */
  lemma SelectedFromPopulation(specimen: seq<Specimen>, count: nat)
    ensures |SelectBottom(specimen, count)| <= count
    ensures forall k | 0 <= k < |SelectBottom(specimen, count)| :: SelectBottom(specimen, count)[k] in specimen
  {
    BottomAreWorst(specimen, count);
    var order := Ranked(specimen, false, count);
    forall k | 0 <= k < |SelectBottom(specimen, count)|
      ensures SelectBottom(specimen, count)[k] in specimen
    {
      assert SelectBottom(specimen, count)[k] == specimen[order[k].tag];
    }
  }

  /** `new Specimen[count]`. */
  method DefaultSpecimens(count: nat) returns (a: array<Specimen>)
    ensures fresh(a) && a.Length == count
    ensures forall p | 0 <= p < count :: a[p] == DefaultSpecimen
  {
    a := new Specimen[count](_ => DefaultSpecimen);
  }

  /** The maps of a new simulation: `GenerateMaps` drawing from its own `new Random(seed)`. */
  method NewMaps(settings: SimulationSettings, seeds: int -> (nat -> real))
    returns (maps: array<Map>, ghost foods: set<array<Food>>)
    requires Rng.IsSeeding(seeds)
    ensures fresh(maps) && maps.Length == settings.specimenCount
    ensures forall i | 0 <= i < maps.Length ::
              maps[i].food[..] == CachedFood(settings.spawnArea, seeds(settings.randomSeed), 0, settings.foodCount)
    ensures forall i, j | 0 <= i < j < maps.Length :: maps[i].food != maps[j].food
    ensures forall i | 0 <= i < maps.Length :: maps[i].food in foods && maps[i].food.Length == settings.foodCount
  {
    var first := new Rng.Random(seeds(settings.randomSeed));
    maps := GenerateMaps(settings, first);
    foods := set i | 0 <= i < maps.Length :: maps[i].food;
  }

  /** The constructor's `GenerateMaps` and `GenerateNewSpecimen`: maps from a generator
      seeded with `randomSeed`, then the population from a second generator with the same
      seed, so the population's seeds come from the same samples as the food's positions. */
  method Initialize(settings: SimulationSettings, seeds: int -> (nat -> real), guids: GuidSource)
    returns (random: Rng.Random, specimen: array<Specimen>, maps: array<Map>,
             ghost born: set<DenseNetwork.NeuralNetwork>, ghost foods: set<array<Food>>)
    requires Rng.IsSeeding(seeds) && |settings.specimenSettings.layerSizes| >= 1
    modifies guids
    ensures fresh(random) && fresh(specimen) && fresh(maps) && random.Valid()
    ensures specimen.Length == maps.Length == settings.specimenCount
    ensures random.stream == seeds(settings.randomSeed) && random.position == settings.specimenCount
    ensures guids.issued == old(guids.issued) + settings.specimenCount
    ensures forall i | 0 <= i < maps.Length ::
              maps[i].food[..] == CachedFood(settings.spawnArea, seeds(settings.randomSeed), 0, settings.foodCount)
    ensures forall i, j | 0 <= i < j < maps.Length :: maps[i].food != maps[j].food
    ensures AllSeeded(specimen[..], maps[..], settings.specimenSettings, seeds, seeds(settings.randomSeed), 0, old(guids.issued))
    ensures forall i | 0 <= i < specimen.Length :: specimen[i].neural in born && specimen[i].home == maps[i]
    ensures forall n | n in born :: Fits(n, settings.specimenSettings)
    ensures forall i | 0 <= i < maps.Length :: maps[i].food in foods && maps[i].food.Length == settings.foodCount
  {
    maps, foods := NewMaps(settings, seeds);
    specimen := new Specimen[settings.specimenCount](_ => DefaultSpecimen);
    random := new Rng.Random(seeds(settings.randomSeed));
    Populate(specimen, maps, settings.specimenSettings, random, seeds, guids);
    forall i | 0 <= i < specimen.Length
      ensures specimen[i].neural != null && Fits(specimen[i].neural, settings.specimenSettings)
      ensures specimen[i].home == maps[i]
    {
      assert specimen[..][i] == specimen[i] && maps[..][i] == maps[i];
    }
    born := set i | 0 <= i < specimen.Length :: specimen[i].neural;
  }

  /** `Simulation`: the population, its maps, the top and bottom specimens of the last
      selection, the frame within the generation, the generation and the best score saved.
      `Guid.NewGuid()` draws from `guids`. The networks the specimens have ever carried are
      `nets`, the food arrays of the maps `foods`. */
  class Simulation {
    const settings: SimulationSettings
    const seeds: int -> (nat -> real)
    const guids: GuidSource
    const random: Rng.Random
    const specimen: array<Specimen>
    const maps: array<Map>
    const topSpecimen: array<Specimen>
    const bottomSpecimen: array<Specimen>
    var frame: int
    var generation: int
    var maxScore: real
    ghost var nets: set<DenseNetwork.NeuralNetwork>
    ghost const foods: set<array<Food>>

    /** The arrays have the lengths the settings give, every specimen has a well formed
        network and its own map, and the top and bottom specimens' networks, where they have
        one, can be copied and bred. */
    ghost predicate Valid()
      reads this`nets, specimen, topSpecimen, bottomSpecimen, maps, nets
    {
      && specimen.Length == maps.Length == settings.specimenCount
      && topSpecimen.Length == settings.topSpecimenToKeep && bottomSpecimen.Length == settings.bottomSpecimenToKeep
      && specimen != topSpecimen && specimen != bottomSpecimen && topSpecimen != bottomSpecimen
      && Rng.IsSeeding(seeds) && random.Valid()
      && Parents(settings, topSpecimen[..], bottomSpecimen[..], nets)
      && Updatable(specimen[..], nets, foods)
      && (forall i | 0 <= i < specimen.Length :: specimen[i].home == maps[i])
      && (forall i | 0 <= i < maps.Length :: maps[i].food in foods && maps[i].food.Length == settings.foodCount)
      && (forall i, j | 0 <= i < j < maps.Length :: maps[i].food != maps[j].food)
    }

    /** `new Simulation(settings)`: the maps and the first population `Initialize` makes,
        and the top and bottom arrays holding `default(Specimen)`. */
    constructor (settings: SimulationSettings, seeds: int -> (nat -> real), guids: GuidSource)
      requires Rng.IsSeeding(seeds) && |settings.specimenSettings.layerSizes| >= 1
      modifies guids
      ensures Valid()
      ensures this.settings == settings && this.seeds == seeds && this.guids == guids
      ensures frame == 0 && generation == 1 && maxScore == 0.0
      ensures fresh(specimen) && fresh(maps) && fresh(topSpecimen) && fresh(bottomSpecimen) && fresh(random)
      ensures random.stream == seeds(settings.randomSeed) && random.position == settings.specimenCount
      ensures guids.issued == old(guids.issued) + settings.specimenCount
      ensures forall p | 0 <= p < topSpecimen.Length :: topSpecimen[p] == DefaultSpecimen
      ensures forall p | 0 <= p < bottomSpecimen.Length :: bottomSpecimen[p] == DefaultSpecimen
    {
      var second, population, generated, born, generatedFood := Initialize(settings, seeds, guids);
      var top := DefaultSpecimens(settings.topSpecimenToKeep);
      var bottom := DefaultSpecimens(settings.bottomSpecimenToKeep);
      this.settings, this.seeds, this.guids := settings, seeds, guids;
      random, specimen, maps, topSpecimen, bottomSpecimen := second, population, generated, top, bottom;
      frame, generation, maxScore := 0, 1, 0.0;
      nets, foods := born, generatedFood;
    }

    /** `SelectTopSpecimen`: the best specimens of the pool, one per network, written to
        the front of `TopSpecimen`; a specimen of the pool without a network throws before
        anything is written. */
    method SelectTopSpecimen() returns (outcome: Outcome)
      requires Valid()
      modifies topSpecimen
      ensures Valid()
      ensures Now() == old(Now()).(top := topSpecimen[..])
      ensures var keyed := old(KeyPool(Pool(specimen[..], topSpecimen[..], generation)));
              && (keyed.Throws? ==> outcome == Thrown(NullReference) && unchanged(topSpecimen))
              && (keyed.Ok? ==> && outcome == Done
                                && var top := Items(SelectTop(keyed.value, topSpecimen.Length));
                                   topSpecimen[..] == top + old(topSpecimen[..])[|top|..])
    {
      var keyed := KeyPool(Pool(specimen[..], topSpecimen[..], generation));
      if keyed.Throws? {
        return Thrown(NullReference);
      }
      var top := Items(SelectTop(keyed.value, topSpecimen.Length));
      SelectedFromPool(specimen[..], topSpecimen[..], generation, keyed.value, topSpecimen.Length, nets);
      WriteFront(topSpecimen, top);
      outcome := Done;
    }

    /** `SelectBottomSpecimen`: the worst specimens of the population, written to the front
        of `BottomSpecimen`. */
    method SelectBottomSpecimen()
      requires Valid()
      modifies bottomSpecimen
      ensures Valid()
      ensures Now() == old(Now()).(bottom := bottomSpecimen[..])
      ensures var bottom := SelectBottom(old(specimen[..]), bottomSpecimen.Length);
              bottomSpecimen[..] == bottom + old(bottomSpecimen[..])[|bottom|..]
    {
      var bottom := SelectBottom(specimen[..], bottomSpecimen.Length);
      SelectedFromPopulation(specimen[..], bottomSpecimen.Length);
      assert forall k | 0 <= k < |bottom| :: bottom[k].neural in nets by {
        forall k | 0 <= k < |bottom|
          ensures bottom[k].neural in nets
        {
          var i :| 0 <= i < specimen.Length && specimen[..][i] == bottom[k];
        }
      }
      WriteFront(bottomSpecimen, bottom);
    }

    /** `SaveTopSpecimen`: `MaxScore` ratchets up to the first scored top specimen's score
        (whose network is then written to a file). */
    method SaveTopSpecimen() returns (outcome: Outcome)
      requires Valid()
      modifies this`maxScore
      ensures Valid()
      ensures Now() == old(Now()).(maxScore := maxScore)
      ensures match Ratchet(old(maxScore), topSpecimen[..])
              case Throws(e) => outcome == Thrown(e) && maxScore == old(maxScore)
              case Ok(v) => outcome == Done && maxScore == v
    {
      match Ratchet(maxScore, topSpecimen[..])
      case Throws(e) =>
        outcome := Thrown(e);
      case Ok(v) =>
        maxScore := v;
        outcome := Done;
    }

    /** `ResetSpecimen`: a new population from the top and bottom specimens; its networks
        join `nets`. */
    method ResetSpecimen()
      returns (outcome: Outcome, ghost built: seq<Specimen>, ghost made: seq<Parameters>,
               ghost tops: seq<Parameters>, ghost bottoms: seq<Parameters>)
      requires Valid()
      modifies this`nets, specimen, random, guids
      ensures nets == old(nets) + NetworksOf(built)
      ensures old(Describes(tops, topSpecimen[..]) && Describes(bottoms, bottomSpecimen[..]))
      ensures outcome == Done ==> Valid()
      ensures Repopulated(settings, old(Now()), Now(), outcome, built, made, maps[..], tops, bottoms, seeds, random.stream)
      ensures Made(built, made, maps[..], settings.specimenSettings)
    {
      tops, bottoms := ParentsOf(topSpecimen[..]), ParentsOf(bottomSpecimen[..]);
      ParentsDescribe(topSpecimen[..]);
      ParentsDescribe(bottomSpecimen[..]);
      label before:
      outcome, built, made := Rebuild(specimen, maps, settings, topSpecimen[..], bottomSpecimen[..], random, seeds, guids, nets);
      assert unchanged@before(topSpecimen, bottomSpecimen, maps);
      nets := nets + NetworksOf(built);
    }

    /** `ResetMapState`: every map gets its food back. */
    method ResetMapState()
      requires Valid()
      modifies foods
      ensures Valid()
      ensures Now() == old(Now()).(food := FoodOf(maps[..], foods))
      ensures forall i | 0 <= i < maps.Length :: maps[i].food[..] == ReactivatedPrefix(old(maps[i].food[..]), settings.foodCount)
    {
      ResetMaps(maps, settings.foodCount, foods);
    }

    /** The simulation's state as values. */
    ghost function Now(): Stage
      reads this, specimen, topSpecimen, bottomSpecimen, maps, foods, random, guids
    {
      Stage(specimen[..], topSpecimen[..], bottomSpecimen[..], FoodOf(maps[..], foods),
            frame, generation, maxScore, random.position, guids.issued)
    }

    /** The first half of `ResetSimulation`. */
    method SelectParents() returns (outcome: Outcome)
      requires Valid()
      modifies topSpecimen, bottomSpecimen, this`maxScore
      ensures Valid()
      ensures Selected(old(Now()), Now(), old(KeyPool(Pool(specimen[..], topSpecimen[..], generation))), outcome)
    {
      outcome := SelectTopSpecimen();
      if outcome.Thrown? {
        return;
      }
      SelectBottomSpecimen();
      outcome := SaveTopSpecimen();
    }

    /** The second half of `ResetSimulation`; `tops` and `bottoms` are the parameters of the
        parents' networks. */
    method Renew()
      returns (outcome: Outcome, ghost reset: Stage, ghost built: seq<Specimen>, ghost made: seq<Parameters>,
               ghost tops: seq<Parameters>, ghost bottoms: seq<Parameters>)
      requires Valid()
      modifies this`frame, this`generation, this`nets, specimen, random, guids, foods
      ensures outcome == Done ==> Valid()
      ensures old(Describes(tops, topSpecimen[..]) && Describes(bottoms, bottomSpecimen[..]))
      ensures Renewed(settings, old(Now()), reset, Now(), outcome, built, made, maps[..], tops, bottoms, seeds, random.stream)
      ensures Made(built, made, maps[..], settings.specimenSettings)
    {
      outcome, built, made, tops, bottoms := ResetSpecimen();
      reset := Now();
      if outcome.Done? {
        StartGeneration(NetworksOf(built));
      }
    }

    /** `ResetMapState()`, then `Frame = 0` and `Generation++`. */
    method StartGeneration(ghost keep: set<DenseNetwork.NeuralNetwork>)
      requires Valid()
      modifies this`frame, this`generation, foods
      ensures Valid() && unchanged(keep)
      ensures Started(settings, old(Now()), Now())
    {
      ResetMapState();
      frame, generation := 0, generation + 1;
    }

    /** `ResetSimulation`: select the top and the bottom specimens, ratchet the best score,
        rebuild the population and put the food back; then a new generation starts at frame
        0. An exception ends the reset where it is thrown. `middle` is the stage after the
        selection, `selected` how the selection ended. */
    method ResetSimulation()
      returns (outcome: Outcome, ghost middle: Stage, ghost selected: Outcome, ghost reset: Stage,
               ghost built: seq<Specimen>, ghost made: seq<Parameters>,
               ghost tops: seq<Parameters>, ghost bottoms: seq<Parameters>)
      requires Valid()
      modifies this`frame, this`generation, this`maxScore, this`nets, specimen, topSpecimen, bottomSpecimen, random, guids, foods
      ensures outcome == Done ==> Valid()
      ensures Selected(old(Now()), middle, old(KeyPool(Pool(specimen[..], topSpecimen[..], generation))), selected)
      ensures selected.Thrown? ==> outcome == selected && built == [] && Now() == middle
      ensures selected == Done ==> Renewed(settings, middle, reset, Now(), outcome, built, made, maps[..], tops, bottoms, seeds, random.stream)
      ensures Made(built, made, maps[..], settings.specimenSettings)
    {
      built, made, tops, bottoms := [], [], [], [];
      outcome := SelectParents();
      reset := Now();
      selected, middle := outcome, Now();
      if outcome.Thrown? {
        return;
      }
      outcome, reset, built, made, tops, bottoms := Renew();
    }

    /** `Frame++`. */
    method AdvanceFrame()
      requires Valid()
      modifies this`frame
      ensures Valid() && Now() == old(Now()).(frame := old(frame) + 1)
      ensures KeyPool(Pool(specimen[..], topSpecimen[..], generation)) == old(KeyPool(Pool(specimen[..], topSpecimen[..], generation)))
    {
      ghost var pool := Pool(specimen[..], topSpecimen[..], generation);
      frame := frame + 1;
      assert forall n | n in NetworksOf(pool) :: n.id == old(n.id);
    }

    /** The `Parallel.For` of `CustomUpdate`, one slot after another: every specimen moves
        and may eat, until a slot throws. Besides the population only the food changes. */
    method UpdateAll(trig: Trig) returns (outcome: Outcome, ghost updated: nat, ghost steps: seq<SlotStep>)
      requires Valid()
      modifies specimen, Buffers(nets), foods
      ensures Valid()
      ensures Updated(old(Now()), Now(), trig, old(ParentsOf(specimen[..])), updated, steps, outcome)
    {
      ghost var pop, params := specimen[..], ParentsOf(specimen[..]);
      ParentsDescribe(pop);
      HomesFood(pop, maps[..], foods);
      ghost var food := HomeFood(pop);
      outcome, updated, steps := UpdateSpecimens(specimen, trig, nets, foods, params);
      SweptPersists(pop, food, specimen[..], HomeFood(pop), trig, params, steps);
      HomesFood(pop, maps[..], foods);
      SweptUpdated(old(Now()), Now(), pop, food, specimen[..], HomeFood(pop), trig, params, updated, steps, outcome);
    }

    /** `CustomUpdate()`: the frame advances; every `generationLengthFrames`-th frame resets
        the simulation instead of updating the specimens, and a length of 0 throws on the
        remainder. `reset` says whether the reset ran, and the other ghost results are those
        of `ResetSimulation` or `UpdateAll`. C#'s truncating `%` and Dafny's agree on
        whether the remainder is 0. */
    method CustomUpdate(trig: Trig)
      returns (outcome: Outcome, ghost reset: bool, ghost updated: nat, ghost steps: seq<SlotStep>, ghost advanced: Stage,
               ghost keyed: Result<seq<Keyed<Specimen>>>, ghost middle: Stage, ghost selected: Outcome, ghost rebuilt: Stage,
               ghost built: seq<Specimen>, ghost made: seq<Parameters>,
               ghost tops: seq<Parameters>, ghost bottoms: seq<Parameters>)
      requires Valid()
      modifies this`frame, this`generation, this`maxScore, this`nets, specimen, topSpecimen, bottomSpecimen,
               random, guids, foods, Buffers(nets)
      ensures outcome == Done || (!reset && settings.generationLengthFrames != 0) ==> Valid()
      ensures advanced == old(Now()).(frame := old(frame) + 1)
      ensures keyed == old(KeyPool(Pool(specimen[..], topSpecimen[..], generation)))
      ensures Ticked(settings, advanced, Now(), outcome, reset, trig, old(ParentsOf(specimen[..])), updated, steps, keyed, middle, selected, rebuilt,
                     built, made, maps[..], tops, bottoms, seeds, random.stream)
      ensures Made(built, made, maps[..], settings.specimenSettings)
    {
      reset, updated, steps, selected := false, 0, [], Done;
      built, made, tops, bottoms := [], [], [], [];
      keyed := KeyPool(Pool(specimen[..], topSpecimen[..], generation));
      AdvanceFrame();
      advanced := Now();
      middle, rebuilt := advanced, advanced;
      if settings.generationLengthFrames == 0 {
        outcome := Thrown(DivideByZero);
      } else if frame % settings.generationLengthFrames == 0 {
        reset := true;
        outcome, middle, selected, rebuilt, built, made, tops, bottoms := ResetSimulation();
      } else {
        outcome, updated, steps := UpdateAll(trig);
      }
    }
  }
}
