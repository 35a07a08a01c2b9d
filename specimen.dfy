/** `Specimen` of `Core/Units`: a struct agent that lives on its own `Map` of food, steers by
    its dense network and scores by eating.

    `Specimen` is a C# struct, so it is a datatype here: a method that changes a specimen
    returns the changed value, and the caller stores it back where the struct lives (an
    array element). Its network and its map are references. The `Food` and `Map` types of
    this revision are not part of this model's sources; from their use (`food.Valid`,
    `food.Position`, `Food[i].Destroy()`, `Food[j].Reactivate()`, `new Food(i, position)`,
    `new Map(food)`, `map.Food`) food is taken to be a struct like `Specimen` and a map a
    class holding a food array. The angle and rotation functions are uninterpreted
    (`Geometry.Trig`), and the `(float)` casts are not modelled. */
module Specimens {
  import opened Errors
  import opened Ids
  import opened Geometry
  import opened Ordering
  import Rng
  import DenseNetwork
  import Layers

  /** `SpecimenSettings`, shared by all specimens. */
  datatype SpecimenSettings = SpecimenSettings(
    moveSpeed: real,
    sightRadius: real,
    consumeRadius: real,
    mutationFactor: real,
    layerSizes: seq<nat>)

  /** The settings' initial values. */
  const DefaultSpecimenSettings := SpecimenSettings(0.2, 20.0, 0.2, 0.05, [2, 18, 9, 1])

  /** One food item of a map. */
  datatype Food = Food(valid: bool, id: int, position: Vec3)

  /** `new Food(id, position)`. */
  function NewFood(id: int, position: Vec3): (f: Food)
    ensures f.valid && f.id == id && f.position == position
  {
    Food(true, id, position)
  }

  /** `default(Food)`: not valid, at the origin. */
  const DefaultFood := Food(false, 0, Zero)

  /** `Food.Destroy()`: only the validity changes. */
  function DestroyFood(f: Food): (r: Food)
    ensures !r.valid && r.id == f.id && r.position == f.position
  {
    f.(valid := false)
  }

  /** `Food.Reactivate()`: only the validity changes. */
  function ReactivateFood(f: Food): (r: Food)
    ensures r.valid && r.id == f.id && r.position == f.position
  {
    f.(valid := true)
  }

  /** A map: the food array one specimen feeds on. */
  class Map {
    const food: array<Food>

    constructor (food: array<Food>)
      ensures this.food == food
    {
      this.food := food;
    }
  }

  datatype Specimen = Specimen(
    valid: bool,
    id: int,
    position: Vec3,
    score: real,
    neural: DenseNetwork.NeuralNetwork?,
    settings: SpecimenSettings,
    home: Map?)

  /** `default(Specimen)`, what a fresh `Specimen[]` holds. */
  const DefaultSpecimen := Specimen(false, 0, Zero, 0.0, null, SpecimenSettings(0.0, 0.0, 0.0, 0.0, []), null)

  /** `new Specimen(id, settings, map)`: valid, at the origin, with score 0 and no network. */
  function NewSpecimen(id: int, settings: SpecimenSettings, home: Map?): (s: Specimen)
    ensures s.valid && s.id == id && s.score == 0.0 && s.position == Zero
    ensures s.neural == null && s.settings == settings && s.home == home
  {
    Specimen(true, id, Zero, 0.0, null, settings, home)
  }

  /** `Destroy()`: only the validity changes. */
  function Destroy(s: Specimen): (r: Specimen)
    ensures !r.valid && r == s.(valid := false)
  {
    s.(valid := false)
  }

  /** `Reactivate()`: only the validity changes. */
  function Reactivate(s: Specimen): (r: Specimen)
    ensures r.valid && r == s.(valid := true)
  {
    s.(valid := true)
  }

  /** Destroying and reactivating restores a valid specimen. */
  lemma ReactivateUndoesDestroy(s: Specimen)
    requires s.valid
    ensures Reactivate(Destroy(s)) == s
  {
  }

  // ----- The networks -----

  /** A network that a specimen with `settings` can take over: well formed, of the layer
      sizes the settings give. */
  ghost predicate Fits(n: DenseNetwork.NeuralNetwork, settings: SpecimenSettings)
    reads n
  {
    n.Valid() && n.sizes == settings.layerSizes
  }

  /** `InitializeRandom(randomSeed)`: a new network of the settings' layer sizes, seeded with
      `seed`; `seeds` gives the sample stream of every seed. */
  method InitializeRandom(s: Specimen, seed: int, seeds: int -> (nat -> real), guids: GuidSource) returns (r: Specimen)
    requires Rng.IsSeeding(seeds) && |s.settings.layerSizes| >= 1
    modifies guids
    ensures r == s.(neural := r.neural) && r.neural != null && fresh(r.neural)
    ensures Fits(r.neural, s.settings) && fresh(r.neural.random) && r.neural.random.stream == seeds(seed)
    ensures r.neural.random.position == Layers.TotalDraws(s.settings.layerSizes, 1)
    ensures guids.issued == old(guids.issued) + 1 && r.neural.id == Guid(guids.issued)
    ensures forall i | 0 <= i < |r.neural.activations| :: fresh(r.neural.activations[i])
  {
    assert Rng.IsSampleStream(seeds(seed));
    var n := new DenseNetwork.NeuralNetwork(s.settings.layerSizes, seeds(seed), guids);
    r := s.(neural := n);
  }

  /** `Copy(parentNeural)`: a new network seeded with 0 that then copies the parent's
      parameters and Id. */
  method Copy(s: Specimen, parent: DenseNetwork.NeuralNetwork, seeds: int -> (nat -> real), guids: GuidSource)
    returns (r: Specimen)
    requires Rng.IsSeeding(seeds) && |s.settings.layerSizes| >= 1 && Fits(parent, s.settings)
    modifies guids
    ensures r == s.(neural := r.neural) && r.neural != null && fresh(r.neural) && Fits(r.neural, s.settings)
    ensures r.neural.id == parent.id && r.neural.weights == parent.weights && r.neural.biases == parent.biases
    ensures fresh(r.neural.random) && r.neural.random.stream == seeds(0)
    ensures r.neural.random.position == Layers.TotalDraws(s.settings.layerSizes, 1)
    ensures guids.issued == old(guids.issued) + 1
    ensures forall i | 0 <= i < |r.neural.activations| :: fresh(r.neural.activations[i])
  {
    r := InitializeRandom(s, 0, seeds, guids);
    r.neural.Copy(parent);
  }

  /** `Breed(parentY, parentX)`: a new network seeded with 0 that then becomes the mean of
      the two parents, with a fresh Id of its own. */
  method Breed(s: Specimen, y: DenseNetwork.NeuralNetwork, x: DenseNetwork.NeuralNetwork,
               seeds: int -> (nat -> real), guids: GuidSource)
    returns (r: Specimen)
    requires Rng.IsSeeding(seeds) && |s.settings.layerSizes| >= 1
    requires Fits(x, s.settings) && Fits(y, s.settings)
    modifies guids
    ensures r == s.(neural := r.neural) && r.neural != null && fresh(r.neural) && Fits(r.neural, s.settings)
    ensures guids.issued == old(guids.issued) + 2 && r.neural.id == Guid(guids.issued)
    ensures fresh(r.neural.random) && r.neural.random.stream == seeds(0)
    ensures r.neural.random.position == Layers.TotalDraws(s.settings.layerSizes, 1)
    ensures DenseNetwork.MeanLayers(y.weights, y.biases, x.weights, x.biases, r.neural.weights, r.neural.biases)
    ensures forall i | 0 <= i < |r.neural.activations| :: fresh(r.neural.activations[i])
  {
    r := InitializeRandom(s, 0, seeds, guids);
    r.neural.Breed(y, x, guids);
  }

  /** `Mutate()`: the network mutates by the settings' factor. */
  method Mutate(s: Specimen, guids: GuidSource)
    requires s.neural != null && s.neural.Valid()
    modifies s.neural, s.neural.random, guids
    ensures s.neural.Valid()
    ensures guids.issued == old(guids.issued) + 1 && s.neural.id == Guid(guids.issued)
    ensures DenseNetwork.MutatedLayers(s.neural.random.stream, old(s.neural.random.position), s.neural.sizes,
                                       s.settings.mutationFactor, old(s.neural.weights), old(s.neural.biases),
                                       s.neural.weights, s.neural.biases)
  {
    s.neural.Mutate(s.settings.mutationFactor, guids);
  }

  // ----- Seeing food -----

  /** The ranking entry of food `i` seen from `from`: its squared distance, tagged with its
      index in the map. */
  function FoodEntry(food: seq<Food>, from: Vec3, i: nat): Entry
    requires i < |food|
  {
    Entry(SqrMagnitude(Sub(food[i].position, from)), i)
  }

  /** The entries of the valid food among the first `n` items, in map order. */
  function Candidates(food: seq<Food>, from: Vec3, n: nat): (r: seq<Entry>)
    requires n <= |food|
    ensures forall e | e in r :: 0 <= e.tag < n && food[e.tag].valid && e == FoodEntry(food, from, e.tag)
    ensures forall i | 0 <= i < n && food[i].valid :: FoodEntry(food, from, i) in r
    ensures TagsIncrease(r)
  {
    if n == 0 then []
    else
      var r := Candidates(food, from, n - 1);
      if food[n - 1].valid then r + [FoodEntry(food, from, n - 1)] else r
  }

  /** The LINQ pipeline of `CustomUpdate`: the valid food ordered by squared distance, ties
      in map order, and the first `count` of it. */
  function Nearest(food: seq<Food>, from: Vec3, count: nat): (r: seq<Entry>)
    ensures |r| <= count
    ensures forall k | 0 <= k < |r| :: 0 <= r[k].tag < |food| && food[r[k].tag].valid && r[k] == FoodEntry(food, from, r[k].tag)
  {
    var sorted := Sort(Candidates(food, from, |food|));
    var r := Take(sorted, count);
    assert forall k | 0 <= k < |r| :: r[k] in Candidates(food, from, |food|) by {
      forall k | 0 <= k < |r|
        ensures r[k] in Candidates(food, from, |food|)
      {
        assert r[k] == sorted[k];
        assert sorted[k] in multiset(sorted);
      }
    }
    r
  }

  /** The ranking is in (distance, map order) order, every valid food it leaves out is no
      nearer than any it keeps, and it leaves none out when it is shorter than `count`. */
  lemma NearestAreClosest(food: seq<Food>, from: Vec3, count: nat, i: nat)
    requires i < |food| && food[i].valid
    ensures SortedByKeyThenTag(Nearest(food, from, count))
    ensures FoodEntry(food, from, i) in Nearest(food, from, count)
            || forall k | 0 <= k < |Nearest(food, from, count)| :: Precedes(Nearest(food, from, count)[k], FoodEntry(food, from, i))
    ensures |Nearest(food, from, count)| < count ==> FoodEntry(food, from, i) in Nearest(food, from, count)
  {
    var c := Candidates(food, from, |food|);
    assert Nearest(food, from, count) == Take(Sort(c), count);
    TakeSortedIsLeast(c, count, FoodEntry(food, from, i));
  }

  /** The food `CustomUpdate` tries to eat: the first of the ranking, or `default` (index 0,
      not valid, at the origin) when the ranking is empty. */
  datatype Target = Target(food: Food, index: int)

  function ConsumeTarget(food: seq<Food>, ranking: seq<Entry>): (t: Target)
    requires forall k | 0 <= k < |ranking| :: 0 <= ranking[k].tag < |food|
    ensures ranking == [] ==> t == Target(DefaultFood, 0)
    ensures ranking != [] ==> t.index == ranking[0].tag && t.food == food[t.index]
  {
    if ranking == [] then Target(DefaultFood, 0) else Target(food[ranking[0].tag], ranking[0].tag)
  }

  /** With at least one input slot, the target is a valid food nearest of all valid food. */
  lemma TargetIsNearest(food: seq<Food>, from: Vec3, count: nat, i: nat)
    requires i < |food| && food[i].valid && count > 0
    ensures Nearest(food, from, count) != []
    ensures var t := ConsumeTarget(food, Nearest(food, from, count));
            0 <= t.index < |food| && t.food.valid
            && SqrMagnitude(Sub(t.food.position, from)) <= SqrMagnitude(Sub(food[i].position, from))
  {
    var c := Candidates(food, from, |food|);
    SortFirstIsLeast(c, FoodEntry(food, from, i));
    assert Nearest(food, from, count)[0] == Sort(c)[0];
  }

  /** With no valid food in sight the target is the default food: index 0 at the origin. A
      specimen that then stands within the consume radius of the origin scores as if it ate. */
  lemma EmptySightTargetsOrigin(food: seq<Food>, from: Vec3, count: nat)
    requires forall i | 0 <= i < |food| :: !food[i].valid
    ensures Nearest(food, from, count) == []
    ensures ConsumeTarget(food, Nearest(food, from, count)) == Target(DefaultFood, 0)
  {
    NoValidFoodNoCandidates(food, from, |food|);
  }

  lemma {:induction false} NoValidFoodNoCandidates(food: seq<Food>, from: Vec3, n: nat)
    requires n <= |food| && forall i | 0 <= i < n :: !food[i].valid
    ensures Candidates(food, from, n) == []
  {
    if n > 0 {
      NoValidFoodNoCandidates(food, from, n - 1);
    }
  }

  /** `SignedAngle(food.Position - position, right, up) / 360`: the input a seen food gives. */
  function FoodAngle(trig: Trig, f: Food, from: Vec3): real
  {
    trig.signedAngle(Sub(f.position, from), Right, Up) / 360.0
  }

  /** The input buffer after the sight loop: slot `k` holds the angle to the `k`-th nearest
      food, the slots past the ranking keep their values. */
  function Sighted(before: seq<real>, food: seq<Food>, ranking: seq<Entry>, from: Vec3, trig: Trig): (r: seq<real>)
    requires |ranking| <= |before|
    requires forall k | 0 <= k < |ranking| :: 0 <= ranking[k].tag < |food|
    ensures |r| == |before|
    ensures forall k | 0 <= k < |ranking| :: r[k] == FoodAngle(trig, food[ranking[k].tag], from)
    ensures forall k | |ranking| <= k < |before| :: r[k] == before[k]
  {
    seq(|before|, k requires 0 <= k < |before| =>
      if k < |ranking| then FoodAngle(trig, food[ranking[k].tag], from) else before[k])
  }

  /** `position + (AngleAxis(angle, down) * right) * moveSpeed`. */
  function Step(trig: Trig, position: Vec3, angle: real, speed: real): Vec3
  {
    Add(position, Scale(trig.rotate(angle, Down, Right), speed))
  }

  // ----- Eating -----

  /** `ConsumeFood(closestFood)`: when the target lies within the consume radius, the map's
      food at the target's index is destroyed and the score grows by 50; otherwise nothing
      changes. An index outside the map (only the default target of an empty map) throws. */
  method ConsumeFood(s: Specimen, target: Target) returns (r: Specimen, outcome: Outcome)
    requires s.home != null
    modifies s.home.food
    ensures !WithinDistance(target.food.position, s.position, s.settings.consumeRadius) ==>
              r == s && outcome == Done && unchanged(s.home.food)
    ensures WithinDistance(target.food.position, s.position, s.settings.consumeRadius) && !(0 <= target.index < s.home.food.Length) ==>
              r == s && outcome == Thrown(IndexOutOfRange) && unchanged(s.home.food)
    ensures WithinDistance(target.food.position, s.position, s.settings.consumeRadius) && 0 <= target.index < s.home.food.Length ==>
              && r == s.(score := s.score + 50.0) && outcome == Done
              && s.home.food[..] == old(s.home.food[..])[target.index := DestroyFood(old(s.home.food[target.index]))]
  {
    r, outcome := s, Done;
    if WithinDistance(target.food.position, s.position, s.settings.consumeRadius) {
      if !(0 <= target.index < s.home.food.Length) {
        return s, Thrown(IndexOutOfRange);
      }
      s.home.food[target.index] := DestroyFood(s.home.food[target.index]);
      r := s.(score := s.score + 50.0);
    }
  }

  // ----- The two update rules -----

  /** `s` moved by `angle`: `position + (AngleAxis(angle, down) * right) * moveSpeed`. */
  function Moved(s: Specimen, trig: Trig, angle: real): (r: Specimen)
    ensures r == s.(position := Step(trig, s.position, angle, s.settings.moveSpeed))
  {
    s.(position := Step(trig, s.position, angle, s.settings.moveSpeed))
  }

  /** The end of an update: `s` moved by `angle` and then tried to eat `target`, leaving the
      specimen `r`, the outcome and the map's food `after` (it was `before`). */
  ghost predicate Eaten(s: Specimen, trig: Trig, angle: real, target: Target, before: seq<Food>,
                        r: Specimen, outcome: Outcome, after: seq<Food>)
  {
    var moved := Moved(s, trig, angle);
    var eats := WithinDistance(target.food.position, moved.position, s.settings.consumeRadius);
    && (!eats ==> r == moved && outcome == Done && after == before)
    && (eats && !(0 <= target.index < |before|) ==> r == moved && outcome == Thrown(IndexOutOfRange) && after == before)
    && (eats && 0 <= target.index < |before| ==>
          r == moved.(score := s.score + 50.0) && outcome == Done && after == before[target.index := DestroyFood(before[target.index])])
  }

  /** Move by `angle`, then `ConsumeFood(target)`. */
  method MoveAndConsume(s: Specimen, trig: Trig, angle: real, target: Target) returns (r: Specimen, outcome: Outcome)
    requires s.home != null
    modifies s.home.food
    ensures Eaten(s, trig, angle, target, old(s.home.food[..]), r, outcome, s.home.food[..])
  {
    r, outcome := ConsumeFood(Moved(s, trig, angle), target);
  }

  /** `CustomUpdate()`: the input buffer gets the angles to the nearest valid food, the
      network runs, the specimen moves by its first output turned into an angle, and then
      tries to eat the nearest food. An empty output layer throws before the move. */
  method CustomUpdate(s: Specimen, trig: Trig) returns (r: Specimen, outcome: Outcome)
    requires s.neural != null && s.neural.Valid() && s.home != null
    modifies s.neural.activations[0], s.neural.LayerBuffers(), s.home.food
    ensures var ranking := Nearest(old(s.home.food[..]), s.position, s.neural.sizes[0]);
            s.neural.activations[0][..] == Sighted(old(s.neural.activations[0][..]), old(s.home.food[..]), ranking, s.position, trig)
    ensures forall l | 1 <= l < |s.neural.sizes| ::
              s.neural.activations[l][..]
              == Layers.Outputs(s.neural.sizes, s.neural.weights, s.neural.biases, s.neural.activations[0][..], true)[l]
    ensures s.neural.sizes[|s.neural.sizes| - 1] == 0 ==> r == s && outcome == Thrown(IndexOutOfRange) && unchanged(s.home.food)
    ensures s.neural.sizes[|s.neural.sizes| - 1] > 0 ==>
              Eaten(s, trig, s.neural.activations[|s.neural.sizes| - 1][0] * 360.0,
                    ConsumeTarget(old(s.home.food[..]), Nearest(old(s.home.food[..]), s.position, s.neural.sizes[0])),
                    old(s.home.food[..]), r, outcome, s.home.food[..])
  {
    var net := s.neural;
    var input := net.GetInputArray();
    var food := s.home.food[..];
    var ranking := Nearest(food, s.position, input.Length);
    var target := See(input, food, ranking, s.position, trig);
    var outputs := net.FeedForward();
    if outputs.Length == 0 {
      return s, Thrown(IndexOutOfRange);
    }
    r, outcome := MoveAndConsume(s, trig, outputs[0] * 360.0, target);
  }

  /** The sight loop of `CustomUpdate()`: slot `index` of the input gets the angle to the
      `index`-th entry of the ranking, and the first entry becomes the target. */
  method See(input: array<real>, food: seq<Food>, ranking: seq<Entry>, from: Vec3, trig: Trig) returns (target: Target)
    requires |ranking| <= input.Length
    requires forall k | 0 <= k < |ranking| :: 0 <= ranking[k].tag < |food|
    modifies input
    ensures input[..] == Sighted(old(input[..]), food, ranking, from, trig)
    ensures target == ConsumeTarget(food, ranking)
  {
    ghost var before := input[..];
    target := Target(DefaultFood, 0);
    var index := 0;
    while index < |ranking|
      invariant 0 <= index <= |ranking|
      invariant index > 0 ==> target == ConsumeTarget(food, ranking)
      invariant index == 0 ==> target == Target(DefaultFood, 0)
      invariant forall k | 0 <= k < index :: input[k] == FoodAngle(trig, food[ranking[k].tag], from)
      invariant forall k | index <= k < input.Length :: input[k] == before[k]
    {
      if index == 0 {
        target := Target(food[ranking[0].tag], ranking[0].tag);
      }
      input[index] := FoodAngle(trig, food[ranking[index].tag], from);
      index := index + 1;
    }
  }

  /** `CustomUpdateSimple()`, the hand-written rule: head straight for the nearest valid food
      and try to eat it. With no valid food `First()` throws. */
  method CustomUpdateSimple(s: Specimen, trig: Trig) returns (r: Specimen, outcome: Outcome)
    requires s.home != null
    modifies s.home.food
    ensures Nearest(old(s.home.food[..]), s.position, 1) == [] ==>
              r == s && outcome == Thrown(InvalidOperation) && unchanged(s.home.food)
    ensures Nearest(old(s.home.food[..]), s.position, 1) != [] ==>
              var target := ConsumeTarget(old(s.home.food[..]), Nearest(old(s.home.food[..]), s.position, 1));
              var angle := trig.signedAngle(Sub(target.food.position, s.position), Right, Up);
              && target.food.valid && 0 <= target.index < |old(s.home.food[..])|
              && Eaten(s, trig, angle, target, old(s.home.food[..]), r, outcome, s.home.food[..])
              && outcome == Done
  {
    var food := s.home.food[..];
    var ranking := Nearest(food, s.position, 1);
    if ranking == [] {
      return s, Thrown(InvalidOperation);
    }
    var target := ConsumeTarget(food, ranking);
    var angle := trig.signedAngle(Sub(target.food.position, s.position), Right, Up);
    r, outcome := MoveAndConsume(s, trig, angle, target);
  }
}
