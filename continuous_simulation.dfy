/** The continuous, open-ended simulation: a singleton that advances one frame per call,
    spawns the initial population on the first frame, updates every specimen and then every
    tree, drains the queue of actions deferred until after the updates, and keeps the best
    score seen so far.

    The specimen class this simulation drives (`Specimen(bool)`, `InitializeRandomNaural`,
    `Specimen.CustomUpdate(frame)`) is not part of this model: a specimen here is a registry
    unit of kind `SpecimenKind`, and each call into it is recorded in `trace`. Deferred
    actions are opaque; running one is recorded too. The parallel loops run sequentially,
    in an order the model leaves open. */
module ContinuousSimulation {
  import opened Errors
  import opened Ids
  import opened Geometry
  import opened Registry
  import Rng
  import Trees

  /** `SimulationSettings`; `randomSeed` stands for the stream the generator is built on. */
  datatype SimulationSettings = SimulationSettings(
    initialSpecimenCount: int,
    initialFoodCount: int,
    initialSilicaCount: int,
    spawnArea: Rect,
    randomSeed: int,
    delayBetweenFramesMs: int)

  const DefaultSettings := SimulationSettings(100, 50, 50, Rect(-100.0, -100.0, 200.0, 200.0), 5, 0)

  /** An `Action` queued in `ActionsAfterUpdates`, identified by a tag. */
  datatype DeferredAction = DeferredAction(tag: nat)

  /** What a tick did, in order. */
  datatype TickEvent =
    | SpecimenSeeded(seed: int)
    | SpecimenUpdated(specimen: Guid, frame: int)
    | TreeUpdated(tree: Guid, frame: int)
    | ActionRun(action: DeferredAction)

  /** The record of running `actions` in order. */
  function Runs(actions: seq<DeferredAction>): (r: seq<TickEvent>)
    ensures |r| == |actions|
    ensures forall i | 0 <= i < |actions| :: r[i] == ActionRun(actions[i])
  {
    seq(|actions|, i requires 0 <= i < |actions| => ActionRun(actions[i]))
  }

  /** Draining a queue filled in two batches runs the first batch, then the second. */
  lemma RunsOfConcatenation(a: seq<DeferredAction>, b: seq<DeferredAction>)
    ensures Runs(a + b) == Runs(a) + Runs(b)
  {
    assert forall i | 0 <= i < |a + b| :: Runs(a + b)[i] == (Runs(a) + Runs(b))[i];
  }

  /** The records of seeding one specimen per seed. */
  function Seeded(seeds: seq<int>): (r: seq<TickEvent>)
    ensures |r| == |seeds|
    ensures forall i | 0 <= i < |seeds| :: r[i] == SpecimenSeeded(seeds[i])
  {
    if seeds == [] then [] else [SpecimenSeeded(seeds[0])] + Seeded(seeds[1..])
  }

  /** The records of updating the specimens in `order` on `frame`. */
  function SpecimenUpdates(order: seq<Unit>, frame: int): (r: seq<TickEvent>)
    ensures |r| == |order|
    ensures forall i | 0 <= i < |order| :: r[i] == SpecimenUpdated(order[i].id, frame)
  {
    seq(|order|, i requires 0 <= i < |order| => SpecimenUpdated(order[i].id, frame))
  }

  lemma SpecimenUpdatesOfSnoc(order: seq<Unit>, u: Unit, frame: int)
    ensures SpecimenUpdates(order + [u], frame) == SpecimenUpdates(order, frame) + [SpecimenUpdated(u.id, frame)]
  {
    assert forall i | 0 <= i < |order| + 1 ::
      SpecimenUpdates(order + [u], frame)[i] == (SpecimenUpdates(order, frame) + [SpecimenUpdated(u.id, frame)])[i];
  }

  /** The records of updating the trees in `order` on `frame`. */
  function TreeUpdates(order: seq<Unit>, frame: int): (r: seq<TickEvent>)
    ensures |r| == |order|
    ensures forall i | 0 <= i < |order| :: r[i] == TreeUpdated(order[i].id, frame)
  {
    seq(|order|, i requires 0 <= i < |order| => TreeUpdated(order[i].id, frame))
  }

  lemma TreeUpdatesOfSnoc(order: seq<Unit>, u: Unit, frame: int)
    ensures TreeUpdates(order + [u], frame) == TreeUpdates(order, frame) + [TreeUpdated(u.id, frame)]
  {
    assert forall i | 0 <= i < |order| + 1 ::
      TreeUpdates(order + [u], frame)[i] == (TreeUpdates(order, frame) + [TreeUpdated(u.id, frame)])[i];
  }

  /** `m` is the highest score among `units`, and some unit has it. */
  ghost predicate IsBestScore(units: set<Unit>, m: real)
    reads units
  {
    (exists u | u in units :: u.score == m) && forall u | u in units :: u.score <= m
  }
  /** `OrderByDescending(s => s.Score).FirstOrDefault()`: a unit of `units` with the highest
      score, or `null` when there is none. */
  method HighestScore(units: set<Unit>) returns (top: Unit?)
    ensures top == null <==> units == {}
    ensures top != null ==> top in units && IsBestScore(units, top.score)
  {
    var remaining := units;
    top := null;
    while remaining != {}
      invariant remaining <= units
      invariant top == null ==> remaining == units
      invariant top != null ==> top in units && top !in remaining
      invariant top != null ==> forall u | u in units && u !in remaining :: u.score <= top.score
      decreases |remaining|
    {
      var u :| u in remaining;
      if top == null || u.score > top.score {
        top := u;
      }
      remaining := remaining - {u};
    }
  }


  /** How many times `for (int i = 0; i < n; i++)` runs. */
  function Count(n: int): (r: nat)
    ensures n >= 0 ==> r == n
    ensures n < 0 ==> r == 0
  {
    if n < 0 then 0 else n
  }

  class Simulation {
    var frame: int
    var maxScore: real
    const settings: SimulationSettings
    const random: Rng.Random
    var actionsAfterUpdates: seq<DeferredAction>
    /** The calls into specimens and deferred actions, in order. */
    var trace: seq<TickEvent>

    ghost predicate Valid()
    {
      random.Valid()
    }

    /** `StartSync(settings)`: the settings and a generator (standing for the seed). */
    constructor (settings: SimulationSettings, stream: nat -> real)
      requires Rng.IsSampleStream(stream)
      ensures Valid() && this.settings == settings && random.stream == stream && random.position == 0
      ensures fresh(random)
      ensures frame == 0 && maxScore == 0.0 && actionsAfterUpdates == [] && trace == []
    {
      this.settings := settings;
      random := new Rng.Random(stream);
      frame := 0;
      maxScore := 0.0;
      actionsAfterUpdates := [];
      trace := [];
    }

    /** `ActionsAfterUpdates.Enqueue(action)`. */
    method Enqueue(action: DeferredAction)
      modifies this
      ensures actionsAfterUpdates == old(actionsAfterUpdates) + [action]
      ensures frame == old(frame) && maxScore == old(maxScore) && trace == old(trace)
    {
      actionsAfterUpdates := actionsAfterUpdates + [action];
    }

    /** One iteration of the first loop of `SpawnInitialUnits`: a registered specimen at a
        random point of the spawn area, and the seed drawn for its network. */
    method SpawnSpecimen(guids: GuidSource, db: Database) returns (s: Unit, seed: int)
      requires Valid() && db.Valid() && db.KeysIssuedBy(guids)
      modifies random, guids, db.Repr()
      ensures Valid() && db.Valid() && db.KeysIssuedBy(guids)
      ensures fresh(s) && s.kind == SpecimenKind && s.valid && s.id == Guid(old(guids.issued) + 1)
      ensures guids.issued == old(guids.issued) + 1
      ensures db.Registered(s, old(db.Contents()))
      ensures random.position == old(random.position) + 3
      ensures s.position == PositionWithinRect(settings.spawnArea, random.stream(old(random.position)),
                                               random.stream(old(random.position) + 1))
      ensures seed == Rng.Below(random.stream(old(random.position) + 2), Rng.IntMaxValue)
    {
      var sampleX := random.NextDouble();
      var sampleZ := random.NextDouble();
      s := new Unit(SpecimenKind, PositionWithinRect(settings.spawnArea, sampleX, sampleZ), true, guids, db);
      seed := random.NextInt();
    }

    /** One iteration of the second loop of `SpawnInitialUnits`: a registered Food at a
        random point of the spawn area. */
    method SpawnFood(guids: GuidSource, db: Database) returns (f: Unit)
      requires Valid() && db.Valid() && db.KeysIssuedBy(guids)
      modifies random, guids, db.Repr()
      ensures Valid() && db.Valid() && db.KeysIssuedBy(guids)
      ensures fresh(f) && f.kind == FoodKind && f.valid && f.id == Guid(old(guids.issued) + 1)
      ensures guids.issued == old(guids.issued) + 1
      ensures db.Registered(f, old(db.Contents()))
      ensures random.position == old(random.position) + 2
      ensures f.position == PositionWithinRect(settings.spawnArea, random.stream(old(random.position)),
                                               random.stream(old(random.position) + 1))
    {
      var sampleX := random.NextDouble();
      var sampleZ := random.NextDouble();
      f := new Unit(FoodKind, PositionWithinRect(settings.spawnArea, sampleX, sampleZ), true, guids, db);
    }

    /** The first loop of `SpawnInitialUnits`: `initialSpecimenCount` specimens, each placed
        and then given a seed for its network, all registered. */
    method SpawnInitialSpecimens(guids: GuidSource, db: Database) returns (seeds: seq<int>)
      requires Valid() && db.Valid() && db.KeysIssuedBy(guids)
      modifies random, guids, db.Repr()
      ensures Valid() && db.Valid() && db.KeysIssuedBy(guids)
      ensures |seeds| == Count(settings.initialSpecimenCount)
      ensures random.position == old(random.position) + 3 * |seeds|
      ensures |db.Contents().specimen| == |old(db.Contents().specimen)| + |seeds|
      ensures forall k | k != SpecimenKind :: db.Contents().Of(k) == old(db.Contents().Of(k))
    {
      seeds := [];
      while |seeds| < settings.initialSpecimenCount
        invariant Valid() && db.Valid() && db.KeysIssuedBy(guids)
        invariant |seeds| <= Count(settings.initialSpecimenCount)
        invariant random.position == old(random.position) + 3 * |seeds|
        invariant |db.Contents().specimen| == |old(db.Contents().specimen)| + |seeds|
        invariant forall k | k != SpecimenKind :: db.Contents().Of(k) == old(db.Contents().Of(k))
      {
        ghost var before := db.Contents();
        var s, seed := SpawnSpecimen(guids, db);
        db.RegisteredAddsOne(s, before);
        seeds := seeds + [seed];
      }
    }

    /** The second loop of `SpawnInitialUnits`: `initialFoodCount` Food, each placed, all
        registered. */
    method SpawnInitialFood(guids: GuidSource, db: Database)
      requires Valid() && db.Valid() && db.KeysIssuedBy(guids)
      modifies random, guids, db.Repr()
      ensures Valid() && db.Valid() && db.KeysIssuedBy(guids)
      ensures random.position == old(random.position) + 2 * Count(settings.initialFoodCount)
      ensures |db.Contents().food| == |old(db.Contents().food)| + Count(settings.initialFoodCount)
      ensures forall k | k != FoodKind :: db.Contents().Of(k) == old(db.Contents().Of(k))
    {
      var i := 0;
      while i < settings.initialFoodCount
        invariant Valid() && db.Valid() && db.KeysIssuedBy(guids)
        invariant 0 <= i <= Count(settings.initialFoodCount)
        invariant random.position == old(random.position) + 2 * i
        invariant |db.Contents().food| == |old(db.Contents().food)| + i
        invariant forall k | k != FoodKind :: db.Contents().Of(k) == old(db.Contents().Of(k))
      {
        ghost var before := db.Contents();
        var f := SpawnFood(guids, db);
        db.RegisteredAddsOne(f, before);
        i := i + 1;
      }
    }

    /** `SpawnInitialUnits()`: the specimens first, each seeded as it is created, then the
        Food. */
    method SpawnInitialUnits(guids: GuidSource, db: Database) returns (seeds: seq<int>)
      requires Valid() && db.Valid() && db.KeysIssuedBy(guids)
      modifies this, random, guids, db.Repr()
      ensures Valid() && db.Valid() && db.KeysIssuedBy(guids)
      ensures frame == old(frame) && maxScore == old(maxScore) && actionsAfterUpdates == old(actionsAfterUpdates)
      ensures |db.Contents().specimen| == |old(db.Contents().specimen)| + Count(settings.initialSpecimenCount)
      ensures |db.Contents().food| == |old(db.Contents().food)| + Count(settings.initialFoodCount)
      ensures db.Contents().trees == old(db.Contents().trees)
      ensures db.Contents().silica == old(db.Contents().silica) && db.Contents().shelters == old(db.Contents().shelters)
      ensures |seeds| == Count(settings.initialSpecimenCount)
      ensures trace == old(trace) + Seeded(seeds)
    {
      ghost var initial := db.Contents();
      seeds := SpawnInitialSpecimens(guids, db);
      ghost var middle := db.Contents();
      assert middle.Of(FoodKind) == initial.Of(FoodKind) && middle.Of(TreeKind) == initial.Of(TreeKind);
      assert middle.Of(SilicaKind) == initial.Of(SilicaKind) && middle.Of(ShelterKind) == initial.Of(ShelterKind);
      SpawnInitialFood(guids, db);
      ghost var final := db.Contents();
      assert final.Of(SpecimenKind) == middle.Of(SpecimenKind) && final.Of(TreeKind) == middle.Of(TreeKind);
      assert final.Of(SilicaKind) == middle.Of(SilicaKind) && final.Of(ShelterKind) == middle.Of(ShelterKind);
      trace := trace + Seeded(seeds);
    }

    /** The first parallel loop of `CustomUpdate`: every registered specimen is updated once,
        in the order `order`. */
    method UpdateSpecimens(db: Database) returns (order: seq<Unit>)
      requires db.Valid()
      modifies this
      ensures frame == old(frame) && maxScore == old(maxScore) && actionsAfterUpdates == old(actionsAfterUpdates)
      ensures |order| == |db.specimen.objects.Values|
      ensures forall u :: u in order <==> u in db.specimen.objects.Values
      ensures trace == old(trace) + SpecimenUpdates(order, frame)
    {
      var remaining := db.specimen.Values();
      order := [];
      while remaining != {}
        invariant remaining <= db.specimen.objects.Values
        invariant |order| + |remaining| == |db.specimen.objects.Values|
        invariant forall u :: u in order <==> u in db.specimen.objects.Values && u !in remaining
        invariant frame == old(frame) && maxScore == old(maxScore) && actionsAfterUpdates == old(actionsAfterUpdates)
        invariant trace == old(trace) + SpecimenUpdates(order, frame)
        decreases |remaining|
      {
        var u :| u in remaining;
        SpecimenUpdatesOfSnoc(order, u, frame);
        trace := trace + [SpecimenUpdated(u.id, frame)];
        order := order + [u];
        remaining := remaining - {u};
      }
    }

    /** `ActionsAfterUpdates` is run in the order the actions were queued, then cleared. */
    method RunDeferredActions()
      modifies this
      ensures frame == old(frame) && maxScore == old(maxScore)
      ensures actionsAfterUpdates == []
      ensures trace == old(trace) + Runs(old(actionsAfterUpdates))
    {
      var i := 0;
      while i < |actionsAfterUpdates|
        invariant 0 <= i <= |actionsAfterUpdates|
        invariant frame == old(frame) && maxScore == old(maxScore) && actionsAfterUpdates == old(actionsAfterUpdates)
        invariant trace == old(trace) + Runs(actionsAfterUpdates[..i])
      {
        assert actionsAfterUpdates[..i + 1] == actionsAfterUpdates[..i] + [actionsAfterUpdates[i]];
        RunsOfConcatenation(actionsAfterUpdates[..i], [actionsAfterUpdates[i]]);
        trace := trace + [ActionRun(actionsAfterUpdates[i])];
        i := i + 1;
      }
      assert actionsAfterUpdates[..i] == actionsAfterUpdates;
      actionsAfterUpdates := [];
    }

    /** `SaveTopSpecimen()`: the best score among the registered specimens replaces
        `MaxScore` only when it is strictly greater; with no specimens nothing happens. */
    method SaveTopSpecimen(db: Database)
      requires db.Valid()
      modifies this`maxScore
      ensures frame == old(frame) && trace == old(trace) && actionsAfterUpdates == old(actionsAfterUpdates)
      ensures maxScore >= old(maxScore)
      ensures (forall u | u in db.specimen.objects.Values :: u.score <= old(maxScore)) ==> maxScore == old(maxScore)
      ensures maxScore != old(maxScore) ==> IsBestScore(db.specimen.objects.Values, maxScore)
      ensures (exists u | u in db.specimen.objects.Values :: u.score > old(maxScore)) ==>
                IsBestScore(db.specimen.objects.Values, maxScore)
    {
      var top := HighestScore(db.specimen.Values());
      if top == null || top.score <= maxScore {
        return;
      }
      maxScore := top.score;
    }

    /** `CustomUpdate()`, the first half: the frame advances, and on the first frame the
        initial units are spawned. */
    method BeginTick(guids: GuidSource, db: Database) returns (seeds: seq<int>)
      requires Valid() && db.Valid() && db.KeysIssuedBy(guids)
      modifies this, random, guids, db.Repr()
      ensures Valid() && db.Valid() && db.KeysIssuedBy(guids)
      ensures frame == old(frame) + 1
      ensures maxScore == old(maxScore) && actionsAfterUpdates == old(actionsAfterUpdates)
      ensures old(frame) != 0 ==> seeds == [] && unchanged(db.Repr())
      ensures old(frame) == 0 ==> |seeds| == Count(settings.initialSpecimenCount)
      ensures |db.Contents().specimen| == |old(db.Contents().specimen)| + |seeds|
      ensures old(frame) == 0 ==>
                |db.Contents().food| == |old(db.Contents().food)| + Count(settings.initialFoodCount)
      ensures db.trees.objects == old(db.trees.objects)
      ensures db.silica.objects == old(db.silica.objects) && db.shelters.objects == old(db.shelters.objects)
      ensures trace == old(trace) + Seeded(seeds)
    {
      frame := frame + 1;
      seeds := [];
      if frame == 1 {
        seeds := SpawnInitialUnits(guids, db);
      }
    }

    /** `CustomUpdate()`: one tick. Specimens are updated before trees, trees before the
        deferred actions, and the best score is saved last; a tree whose schedule draw throws
        ends the tick there. Each tree has a generator of its own, and `owner` maps every
        such generator back to its tree. */
    method CustomUpdate(guids: GuidSource, db: Database, trig: Trig, ghost trees: set<Unit>,
                        ghost owner: map<Rng.Random, Unit>)
      returns (outcome: Outcome, seeds: seq<int>, specimens: seq<Unit>, treeOrder: seq<Unit>,
               ghost dropped: seq<Unit?>, ghost views: seq<FoodView>, ghost rest: set<Unit>)
      requires Valid() && db.Valid() && db.KeysIssuedBy(guids) && trees == db.trees.objects.Values
      requires OwnGenerators(trees, owner) && random !in owner
      modifies this, random, guids, db.Repr(), trees, owner.Keys
      ensures Valid() && db.Valid() && db.KeysIssuedBy(guids) && trees == db.trees.objects.Values
      ensures OwnGenerators(trees, owner)
      ensures frame == old(frame) + 1
      ensures old(frame) != 0 ==> seeds == []
      ensures old(frame) == 0 ==> |seeds| == Count(settings.initialSpecimenCount)
      ensures |specimens| == |db.specimen.objects.Values| && forall u :: u in specimens <==> u in db.specimen.objects.Values
      ensures outcome == Done ==>
                trace == old(trace) + Seeded(seeds) + SpecimenUpdates(specimens, frame) + TreeUpdates(treeOrder, frame)
                         + Runs(old(actionsAfterUpdates))
      ensures outcome == Done ==> actionsAfterUpdates == [] && maxScore >= old(maxScore)
      ensures outcome == Done && maxScore != old(maxScore) ==> IsBestScore(db.specimen.objects.Values, maxScore)
      ensures outcome != Done ==> outcome == Thrown(ArgumentOutOfRange)
      ensures outcome != Done ==> maxScore == old(maxScore) && actionsAfterUpdates == old(actionsAfterUpdates)
      ensures outcome != Done ==>
                trace == old(trace) + Seeded(seeds) + SpecimenUpdates(specimens, frame) + TreeUpdates(treeOrder, frame)
      ensures Swept(trees, rest, treeOrder, dropped, views, frame, trig, old(StatesOf(trees, owner)),
                    StatesOf(trees, owner), outcome)
      ensures forall k | 0 <= k < |dropped| :: views[k] == ViewOf(dropped[k])
      ensures outcome == Done ==> rest == {}
    {
      seeds, specimens := UpdateBeforeTrees(guids, db, trees, owner);
      outcome, treeOrder, dropped, views, rest := UpdateTreesOf(guids, db, trig, trees, owner);
      if outcome.Thrown? {
        return;
      }
      UpdateAfterTrees(guids, db, trees, owner, dropped, views);
    }

    /** The part of `CustomUpdate()` before the trees: the frame, the first-frame spawn and
        the specimens' updates. */
    method UpdateBeforeTrees(guids: GuidSource, db: Database, ghost trees: set<Unit>,
                             ghost owner: map<Rng.Random, Unit>) returns (seeds: seq<int>, specimens: seq<Unit>)
      requires Valid() && db.Valid() && db.KeysIssuedBy(guids)
      requires OwnGenerators(trees, owner) && random !in owner
      modifies this, random, guids, db.Repr()
      ensures Valid() && db.Valid() && db.KeysIssuedBy(guids)
      ensures OwnGenerators(trees, owner) && StatesOf(trees, owner) == old(StatesOf(trees, owner))
      ensures frame == old(frame) + 1
      ensures maxScore == old(maxScore) && actionsAfterUpdates == old(actionsAfterUpdates)
      ensures old(frame) != 0 ==> seeds == []
      ensures old(frame) == 0 ==> |seeds| == Count(settings.initialSpecimenCount)
      ensures |specimens| == |db.specimen.objects.Values| && forall u :: u in specimens <==> u in db.specimen.objects.Values
      ensures db.trees.objects == old(db.trees.objects)
      ensures trace == old(trace) + Seeded(seeds) + SpecimenUpdates(specimens, frame)
    {
      ghost var states := StatesOf(trees, owner);
      assert forall u | u in trees :: u !in db.Repr();
      assert forall r | r in owner.Keys :: r !in db.Repr();
      label before:
      seeds := BeginTick(guids, db);
      assert unchanged@before(trees);
      assert unchanged@before(owner.Keys);
      assert StatesOf(trees, owner) == states;
      specimens := UpdateSpecimensOf(guids, db, trees, owner);
    }

    /** The specimens' updates, which leave the registry and the trees as they were. */
    method UpdateSpecimensOf(guids: GuidSource, db: Database, ghost trees: set<Unit>, ghost owner: map<Rng.Random, Unit>)
      returns (order: seq<Unit>)
      requires Valid() && db.Valid() && db.KeysIssuedBy(guids) && OwnGenerators(trees, owner)
      modifies this
      ensures Valid() && db.Valid() && db.KeysIssuedBy(guids) && db.trees.objects == old(db.trees.objects)
      ensures OwnGenerators(trees, owner) && StatesOf(trees, owner) == old(StatesOf(trees, owner))
      ensures frame == old(frame) && maxScore == old(maxScore) && actionsAfterUpdates == old(actionsAfterUpdates)
      ensures |order| == |db.specimen.objects.Values|
      ensures forall u :: u in order <==> u in db.specimen.objects.Values
      ensures trace == old(trace) + SpecimenUpdates(order, frame)
    {
      ghost var states := StatesOf(trees, owner);
      label before:
      order := UpdateSpecimens(db);
      assert unchanged@before(trees);
      assert unchanged@before(owner.Keys);
      assert StatesOf(trees, owner) == states;
    }

    /** The second parallel loop of `CustomUpdate()`, recorded in `trace`. */
    method UpdateTreesOf(guids: GuidSource, db: Database, trig: Trig, ghost trees: set<Unit>,
                         ghost owner: map<Rng.Random, Unit>)
      returns (outcome: Outcome, order: seq<Unit>, ghost spawned: seq<Unit?>, ghost views: seq<FoodView>,
               ghost rest: set<Unit>)
      requires db.Valid() && db.KeysIssuedBy(guids) && trees == db.trees.objects.Values
      requires OwnGenerators(trees, owner)
      modifies this, guids, db.Repr(), trees, owner.Keys
      ensures frame == old(frame) && maxScore == old(maxScore) && actionsAfterUpdates == old(actionsAfterUpdates)
      ensures trace == old(trace) + TreeUpdates(order, frame)
      ensures db.Valid() && db.KeysIssuedBy(guids)
      ensures db.trees.objects == old(db.trees.objects) && db.specimen.objects == old(db.specimen.objects)
      ensures OnlyDropped(db, guids, old(db.Contents()), old(guids.issued), spawned)
      ensures OwnGenerators(trees, owner)
      ensures Swept(trees, rest, order, spawned, views, frame, trig, old(StatesOf(trees, owner)), StatesOf(trees, owner),
                    outcome)
      ensures forall k | 0 <= k < |spawned| :: views[k] == ViewOf(spawned[k])
      ensures outcome == Done ==> rest == {}
      ensures outcome != Done ==> outcome == Thrown(ArgumentOutOfRange)
    {
      ghost var base, issued := db.Contents(), guids.issued;
      assert this !in db.Repr();
      label start:
      outcome, order, spawned, views, rest := UpdateTrees(frame, guids, db, trig, trees, owner);
      assert unchanged@start(this);
      RecordTrees(order, guids, db, trees, owner, spawned, views, base, issued);
    }

    /** The trees' updates of a tick recorded in `trace`; the trees, the database and the
        food dropped keep what they were. */
    method RecordTrees(order: seq<Unit>, guids: GuidSource, db: Database, ghost trees: set<Unit>,
                       ghost owner: map<Rng.Random, Unit>, ghost spawned: seq<Unit?>, ghost views: seq<FoodView>,
                       ghost base: Snapshot, ghost issued: nat)
      requires OnlyDropped(db, guids, base, issued, spawned) && OwnGenerators(trees, owner)
      requires |views| == |spawned| && forall k | 0 <= k < |spawned| :: views[k] == ViewOf(spawned[k])
      modifies this
      ensures frame == old(frame) && maxScore == old(maxScore) && actionsAfterUpdates == old(actionsAfterUpdates)
      ensures trace == old(trace) + TreeUpdates(order, frame)
      ensures OnlyDropped(db, guids, base, issued, spawned) && OwnGenerators(trees, owner)
      ensures StatesOf(trees, owner) == old(StatesOf(trees, owner))
      ensures forall k | 0 <= k < |spawned| :: views[k] == ViewOf(spawned[k])
    {
      ghost var now := StatesOf(trees, owner);
      label recorded:
      trace := trace + TreeUpdates(order, frame);
      assert unchanged@recorded(trees);
      assert unchanged@recorded(owner.Keys);
      assert StatesOf(trees, owner) == now;
    }

    /** The part of `CustomUpdate()` after the trees: the deferred actions, then the best
        score. */
    method UpdateAfterTrees(guids: GuidSource, db: Database, ghost trees: set<Unit>, ghost owner: map<Rng.Random, Unit>,
                            ghost dropped: seq<Unit?>, ghost views: seq<FoodView>)
      requires Valid() && db.Valid() && db.KeysIssuedBy(guids) && OwnGenerators(trees, owner)
      requires |views| == |dropped| && forall k | 0 <= k < |dropped| :: views[k] == ViewOf(dropped[k])
      modifies this
      ensures forall k | 0 <= k < |dropped| :: views[k] == ViewOf(dropped[k])
      ensures Valid() && db.Valid() && db.KeysIssuedBy(guids)
      ensures db.trees.objects == old(db.trees.objects) && db.specimen.objects == old(db.specimen.objects)
      ensures OwnGenerators(trees, owner) && StatesOf(trees, owner) == old(StatesOf(trees, owner))
      ensures frame == old(frame) && actionsAfterUpdates == []
      ensures trace == old(trace) + Runs(old(actionsAfterUpdates))
      ensures maxScore >= old(maxScore)
      ensures maxScore != old(maxScore) ==> IsBestScore(db.specimen.objects.Values, maxScore)
    {
      ghost var states := StatesOf(trees, owner);
      label before:
      RunDeferredActions();
      SaveTopSpecimen(db);
      assert unchanged@before(trees);
      assert unchanged@before(owner.Keys);
      assert StatesOf(trees, owner) == states;
    }
  }

  /** What `CustomUpdate` reads and writes of a tree: its generator and how far that
      generator has drawn, its schedule, and its position, frequency and radius. */
  datatype TreeState = TreeState(random: Rng.Random?, drawn: nat, nextSpawn: int, position: Vec3, frequency: int, radius: real)

  ghost function StateOf(t: Unit): TreeState
    reads t, t.random
  {
    TreeState(t.random, if t.random == null then 0 else t.random.position, t.nextSpawn,
              t.position, t.spawnFrequency, t.spawnRadius)
  }

  /** Every tree of `trees` has a valid generator of its own: `owner` maps it back to the
      tree. */
  ghost predicate OwnGenerators(trees: set<Unit>, owner: map<Rng.Random, Unit>)
    reads trees
  {
    forall t | t in trees :: t.random != null && t.random.Valid() && t.random in owner && owner[t.random] == t
  }

  /** The state of every tree of `trees`. */
  ghost function StatesOf(trees: set<Unit>, owner: map<Rng.Random, Unit>): (r: map<Unit, TreeState>)
    reads trees, owner.Keys
    ensures OwnGenerators(trees, owner) ==> r.Keys == trees
  {
    map t | t in trees && t.random in owner :: StateOf(t)
  }

  /** What a Food shows: whether it is valid, its quantity and its position. */
  datatype FoodView = FoodView(valid: bool, quantity: real, position: Vec3)

  ghost function ViewOf(f: Unit?): FoodView
    reads f
  {
    if f == null then FoodView(false, 0.0, Vec3(0.0, 0.0, 0.0)) else FoodView(f.valid, f.quantity, f.position)
  }

  /** How many trees of a loop dropped a Food. */
  function SpawnCount(spawned: seq<Unit?>): (r: nat)
    ensures r <= |spawned|
    ensures r == 0 <==> forall k | 0 <= k < |spawned| :: spawned[k] == null
  {
    if spawned == [] then 0
    else SpawnCount(spawned[..|spawned| - 1]) + (if spawned[|spawned| - 1] == null then 0 else 1)
  }

  /** The Food store `food` after the Food in `spawned` were registered in order. */
  function WithDropped(food: map<Guid, Unit>, spawned: seq<Unit?>): map<Guid, Unit>
  {
    if spawned == [] then food
    else
      var rest := WithDropped(food, spawned[..|spawned| - 1]);
      var last := spawned[|spawned| - 1];
      if last == null then rest else rest[last.id := last]
  }

  lemma WithDroppedSnoc(food: map<Guid, Unit>, spawned: seq<Unit?>, f: Unit?)
    ensures WithDropped(food, spawned + [f]) == WithDropped(WithDropped(food, spawned), [f])
    ensures SpawnCount(spawned + [f]) == SpawnCount(spawned) + SpawnCount([f])
  {
    assert (spawned + [f])[..|spawned|] == spawned;
  }

  /** A tree in state `before` came to state `after` by one `CustomUpdate(frame)` ending with
      `outcome`: its generator, position, frequency and radius are kept, its schedule and its
      generator moved as `Trees.Stepped` says, and it dropped `food` exactly when that is not
      null: a valid, full Food (seen as `view`) at the point its first two draws give. */
  ghost predicate TreeStepped(frame: int, trig: Trig, before: TreeState, after: TreeState, food: Unit?, view: FoodView,
                              outcome: Outcome)
  {
    && before.random != null && after.random == before.random
    && after.position == before.position && after.frequency == before.frequency && after.radius == before.radius
    && Trees.Stepped(frame, before.random.stream, before.frequency, before.nextSpawn, before.drawn,
                     after.nextSpawn, after.drawn, food != null, outcome)
    && (food != null ==>
          && food.kind == FoodKind && view.valid && view.quantity == DefaultQuantity
          && view.position == PositionAround(trig, before.position, before.radius,
                                             before.random.stream(before.drawn), before.random.stream(before.drawn + 1)))
  }

  /** One iteration of the second parallel loop of `CustomUpdate`: `tree.CustomUpdate(frame)`
      on tree `t` of `trees`, with the Food it dropped, if any, in `spawned`, the only change
      to the registry. The other trees and the Food dropped before, `foods`, are left as they
      were. */
  method UpdateTree(t: Unit, frame: int, guids: GuidSource, db: Database, trig: Trig, ghost trees: set<Unit>,
                    ghost owner: map<Rng.Random, Unit>, ghost foods: seq<Unit?>, ghost views: seq<FoodView>)
    returns (outcome: Outcome, spawned: Unit?)
    requires db.Valid() && db.KeysIssuedBy(guids)
    requires t.kind == TreeKind && t in trees && OwnGenerators(trees, owner)
    requires forall f | f in foods && f != null :: f !in trees
    requires |views| == |foods| && forall k | 0 <= k < |foods| :: views[k] == ViewOf(foods[k])
    modifies t, t.random, guids, db.Repr()
    ensures TreeStepped(frame, trig, old(StateOf(t)), StateOf(t), spawned, ViewOf(spawned), outcome)
    ensures outcome == Done || outcome == Thrown(ArgumentOutOfRange)
    ensures spawned != null ==> fresh(spawned)
    ensures OnlyDropped(db, guids, old(db.Contents()), old(guids.issued), [spawned])
    ensures OwnGenerators(trees, owner) && StatesOf(trees, owner) == old(StatesOf(trees, owner))[t := StateOf(t)]
    ensures forall k | 0 <= k < |foods| :: views[k] == ViewOf(foods[k])
  {
    ghost var states := StatesOf(trees, owner);
    label before:
    outcome, spawned := StepTree(t, frame, guids, db, trig);
    forall k | 0 <= k < |foods|
      ensures views[k] == ViewOf(foods[k])
    {
      if foods[k] != null {
        assert unchanged@before(foods[k]);
      }
    }
    forall u | u in trees && u != t
      ensures u.random == old(u.random) && StateOf(u) == states[u]
    {
      assert owner[u.random] == u;
    }
    assert StatesOf(trees, owner) == states[t := StateOf(t)];
  }

  /** `tree.CustomUpdate(frame)` on tree `t`, seen as a step of its state, with the Food it
      dropped, if any, the only change to the registry. */
  method StepTree(t: Unit, frame: int, guids: GuidSource, db: Database, trig: Trig) returns (outcome: Outcome, spawned: Unit?)
    requires db.Valid() && db.KeysIssuedBy(guids)
    requires t.kind == TreeKind && t.random != null && t.random.Valid()
    modifies t, t.random, guids, db.Repr()
    ensures t.random == old(t.random)
    ensures TreeStepped(frame, trig, old(StateOf(t)), StateOf(t), spawned, ViewOf(spawned), outcome)
    ensures outcome == Done || outcome == Thrown(ArgumentOutOfRange)
    ensures spawned != null ==> fresh(spawned)
    ensures OnlyDropped(db, guids, old(db.Contents()), old(guids.issued), [spawned])
  {
    ghost var before, issued := db.Contents(), guids.issued;
    outcome, spawned := Trees.CustomUpdate(t, frame, guids, db, trig);
    DroppedOne(db, guids, before, issued, spawned);
  }

  /** A registry that changed from `before` by registering Food `spawned`, if any, with a
      fresh Guid, changed only in its Food store. */
  lemma DroppedOne(db: Database, guids: GuidSource, before: Snapshot, issued: nat, spawned: Unit?)
    requires db.Valid() && db.KeysIssuedBy(guids)
    requires spawned == null ==> db.Contents() == before && guids.issued == issued
    requires spawned != null ==> spawned.kind == FoodKind && db.Registered(spawned, before) && guids.issued == issued + 1
    ensures OnlyDropped(db, guids, before, issued, [spawned])
  {
    if spawned != null {
      db.RegisteredAddsOne(spawned, before);
    }
    assert db.Contents().Of(TreeKind) == before.Of(TreeKind) && db.Contents().Of(SpecimenKind) == before.Of(SpecimenKind);
    assert db.Contents().Of(SilicaKind) == before.Of(SilicaKind) && db.Contents().Of(ShelterKind) == before.Of(ShelterKind);
    assert db.Contents().Of(FoodKind) == db.food.objects;
    assert [spawned][..0] == [];
  }

  /** Of the registry only the Food store has changed since `base`, by the Food in `spawned`,
      each of which took a fresh Guid of `guids`, which had issued `issued` Guids at `base`. */
  ghost predicate OnlyDropped(db: Database, guids: GuidSource, base: Snapshot, issued: nat, spawned: seq<Unit?>)
    reads db, db.Repr(), guids
  {
    && db.Valid() && db.KeysIssuedBy(guids)
    && db.trees.objects == base.trees && db.specimen.objects == base.specimen
    && db.silica.objects == base.silica && db.shelters.objects == base.shelters
    && db.food.objects == WithDropped(base.food, spawned)
    && |db.food.objects| == |base.food| + SpawnCount(spawned)
    && guids.issued == issued + SpawnCount(spawned)
  }

  /** The second parallel loop part way, on the trees' states at the start, `start`, and now,
      `now`: the trees of `order` are updated, each once, and so are all of `trees` but those
      of `rest`, which keep their state; the update of `order[k]` dropped `spawned[k]`, seen
      now as `views[k]`, and every update but the last ended normally, the last with
      `outcome`. */
  ghost predicate Swept(trees: set<Unit>, rest: set<Unit>, order: seq<Unit>, spawned: seq<Unit?>, views: seq<FoodView>,
                        frame: int, trig: Trig, start: map<Unit, TreeState>, now: map<Unit, TreeState>, outcome: Outcome)
  {
    Covered(trees, rest, order, spawned, start, now) && Steps(order, spawned, views, frame, trig, start, now, outcome)
  }

  /** The trees of `order`, each once, and those of `rest` make up `trees`; those of `rest`
      keep their state, and no Food of `spawned` is a tree. */
  ghost predicate Covered(trees: set<Unit>, rest: set<Unit>, order: seq<Unit>, spawned: seq<Unit?>,
                          start: map<Unit, TreeState>, now: map<Unit, TreeState>)
  {
    && rest <= trees && |order| + |rest| == |trees|
    && start.Keys == trees && now.Keys == trees
    && (forall k | 0 <= k < |order| :: order[k] in trees && order[k] !in rest)
    && (forall u | u in trees && u !in rest :: u in order)
    && (forall f | f in spawned && f != null :: f !in trees)
    && (forall u | u in rest :: now[u] == start[u])
  }

  /** The update of `order[k]` took it from `start` to `now` and dropped `spawned[k]`, seen as
      `views[k]`; every update but the last ended normally, the last with `outcome`. */
  ghost predicate Steps(order: seq<Unit>, spawned: seq<Unit?>, views: seq<FoodView>, frame: int, trig: Trig,
                        start: map<Unit, TreeState>, now: map<Unit, TreeState>, outcome: Outcome)
  {
    && |spawned| == |order| && |views| == |order|
    && (forall k {:trigger order[k]} | 0 <= k < |order| ::
          && order[k] in start && order[k] in now
          && TreeStepped(frame, trig, start[order[k]], now[order[k]], spawned[k], views[k],
                         if k < |order| - 1 then Done else outcome))
  }

  /** One more tree of `rest` stepped, with `outcome`, after trees that all stepped normally. */
  lemma SweptSnoc(trees: set<Unit>, rest: set<Unit>, order: seq<Unit>, spawned: seq<Unit?>, views: seq<FoodView>,
                  frame: int, trig: Trig, start: map<Unit, TreeState>, now: map<Unit, TreeState>,
                  t: Unit, after: TreeState, food: Unit?, view: FoodView, outcome: Outcome)
    requires Swept(trees, rest, order, spawned, views, frame, trig, start, now, Done)
    requires t in rest && (food != null ==> food !in trees)
    requires TreeStepped(frame, trig, start[t], after, food, view, outcome)
    ensures Swept(trees, rest - {t}, order + [t], spawned + [food], views + [view], frame, trig, start, now[t := after], outcome)
  {
    CoveredSnoc(trees, rest, order, spawned, start, now, t, after, food);
    StepsSnoc(order, spawned, views, frame, trig, start, now, t, after, food, view, outcome);
  }

  /** Tree `t` of `rest` moves to `order`, with its new state `after`. */
  lemma CoveredSnoc(trees: set<Unit>, rest: set<Unit>, order: seq<Unit>, spawned: seq<Unit?>,
                    start: map<Unit, TreeState>, now: map<Unit, TreeState>, t: Unit, after: TreeState, food: Unit?)
    requires Covered(trees, rest, order, spawned, start, now)
    requires t in rest && (food != null ==> food !in trees)
    ensures Covered(trees, rest - {t}, order + [t], spawned + [food], start, now[t := after])
  {
    var order' := order + [t];
    assert |order'| + |rest - {t}| == |trees|;
    forall u | u in trees && u !in rest - {t}
      ensures u in order'
    {
      if u == t {
        assert order'[|order|] == t;
      } else {
        var k :| 0 <= k < |order| && order[k] == u;
        assert order'[k] == u;
      }
    }
  }

  /** The steps of `order` are kept when tree `t`, not among them, steps once more. */
  lemma StepsSnoc(order: seq<Unit>, spawned: seq<Unit?>, views: seq<FoodView>, frame: int, trig: Trig,
                  start: map<Unit, TreeState>, now: map<Unit, TreeState>,
                  t: Unit, after: TreeState, food: Unit?, view: FoodView, outcome: Outcome)
    requires Steps(order, spawned, views, frame, trig, start, now, Done)
    requires t !in order && t in start
    requires TreeStepped(frame, trig, start[t], after, food, view, outcome)
    ensures Steps(order + [t], spawned + [food], views + [view], frame, trig, start, now[t := after], outcome)
  {
    var order', spawned', views', now' := order + [t], spawned + [food], views + [view], now[t := after];
    forall k | 0 <= k < |order'|
      ensures && order'[k] in start && order'[k] in now'
              && TreeStepped(frame, trig, start[order'[k]], now'[order'[k]], spawned'[k], views'[k],
                             if k < |order'| - 1 then Done else outcome)
    {
      if k < |order| {
        assert order'[k] == order[k] && spawned'[k] == spawned[k] && views'[k] == views[k];
        assert order[k] != t;
        assert now'[order'[k]] == now[order[k]];
        assert (if k < |order'| - 1 then Done else outcome) == (if k < |order| - 1 then Done else Done);
      } else {
        assert order'[k] == t && spawned'[k] == food && views'[k] == view && now'[t] == after;
      }
    }
  }

  /** One iteration of the second parallel loop, on tree `t` of those not yet updated: the
      trees already updated keep their steps, the others their state. */
  method UpdateNextTree(t: Unit, frame: int, guids: GuidSource, db: Database, trig: Trig, ghost trees: set<Unit>,
                        ghost owner: map<Rng.Random, Unit>, ghost rest: set<Unit>, ghost order: seq<Unit>,
                        ghost spawned: seq<Unit?>, ghost views: seq<FoodView>, ghost start: map<Unit, TreeState>,
                        ghost base: Snapshot, ghost issued: nat)
    returns (outcome: Outcome, food: Unit?)
    requires OnlyDropped(db, guids, base, issued, spawned) && OwnGenerators(trees, owner)
    requires Swept(trees, rest, order, spawned, views, frame, trig, start, StatesOf(trees, owner), Done)
    requires forall k | 0 <= k < |spawned| :: views[k] == ViewOf(spawned[k])
    requires t in rest && t.kind == TreeKind
    modifies t, t.random, guids, db.Repr()
    ensures OnlyDropped(db, guids, base, issued, spawned + [food]) && OwnGenerators(trees, owner)
    ensures Swept(trees, rest - {t}, order + [t], spawned + [food], views + [ViewOf(food)], frame, trig,
                  start, StatesOf(trees, owner), outcome)
    ensures forall k | 0 <= k < |spawned + [food]| :: (views + [ViewOf(food)])[k] == ViewOf((spawned + [food])[k])
    ensures outcome == Done || outcome == Thrown(ArgumentOutOfRange)
  {
    ghost var now := StatesOf(trees, owner);
    outcome, food := UpdateTree(t, frame, guids, db, trig, trees, owner, spawned, views);
    forall k | 0 <= k < |spawned| + 1
      ensures (views + [ViewOf(food)])[k] == ViewOf((spawned + [food])[k])
    {
      if k < |spawned| {
        assert (spawned + [food])[k] == spawned[k] && (views + [ViewOf(food)])[k] == views[k];
      }
    }
    SweptSnoc(trees, rest, order, spawned, views, frame, trig, start, now, t, StateOf(t), food, ViewOf(food), outcome);
    WithDroppedSnoc(base.food, spawned, food);
  }

  /** The second parallel loop of `CustomUpdate`: every registered tree (`trees`, each with a
      generator of its own) is updated once, in the order `order`, and the Food dropped are
      `spawned`, registered in that order; a tree whose schedule draw throws ends the loop,
      and the trees after it, `rest`, keep their state. */
  method UpdateTrees(frame: int, guids: GuidSource, db: Database, trig: Trig, ghost trees: set<Unit>,
                     ghost owner: map<Rng.Random, Unit>)
    returns (outcome: Outcome, order: seq<Unit>, ghost spawned: seq<Unit?>, ghost views: seq<FoodView>,
             ghost rest: set<Unit>)
    requires db.Valid() && db.KeysIssuedBy(guids) && trees == db.trees.objects.Values
    requires OwnGenerators(trees, owner)
    modifies guids, db.Repr(), trees, owner.Keys
    ensures OnlyDropped(db, guids, old(db.Contents()), old(guids.issued), spawned) && OwnGenerators(trees, owner)
    ensures Swept(trees, rest, order, spawned, views, frame, trig, old(StatesOf(trees, owner)), StatesOf(trees, owner),
                  outcome)
    ensures forall k | 0 <= k < |spawned| :: views[k] == ViewOf(spawned[k])
    ensures outcome == Done ==> rest == {}
    ensures outcome == Done || outcome == Thrown(ArgumentOutOfRange)
  {
    ghost var start := StatesOf(trees, owner);
    ghost var base := db.Contents();
    var remaining := db.trees.Values();
    outcome, order, spawned, views, rest := Done, [], [], [], remaining;
    while remaining != {} && outcome == Done
      invariant rest == remaining
      invariant OnlyDropped(db, guids, base, old(guids.issued), spawned) && OwnGenerators(trees, owner)
      invariant Swept(trees, rest, order, spawned, views, frame, trig, start, StatesOf(trees, owner), outcome)
      invariant forall k | 0 <= k < |spawned| :: views[k] == ViewOf(spawned[k])
      invariant outcome == Done || outcome == Thrown(ArgumentOutOfRange)
      decreases |remaining|
    {
      var t :| t in remaining;
      var food;
      outcome, food := UpdateNextTree(t, frame, guids, db, trig, trees, owner, rest, order, spawned, views, start,
                                      base, old(guids.issued));
      order, spawned, views := order + [t], spawned + [food], views + [ViewOf(food)];
      remaining := remaining - {t};
      rest := remaining;
    }
  }
}
