/** `Tree`: a unit that drops Food around itself on a randomised schedule. Its fields
    (`spawnRadius`, `spawnFrequency`, `nextSpawn` and the private generator) live on
    `Registry.Unit`; a tree is a unit of kind `TreeKind`. */
module Trees {
  import opened Errors
  import opened Ids
  import opened Geometry
  import opened Registry
  import Rng

  /** `InitializeRandom(seed)`: the tree gets its own generator, standing for the seed. */
  method InitializeRandom(tree: Unit, stream: nat -> real)
    requires tree.kind == TreeKind && Rng.IsSampleStream(stream)
    modifies tree
    ensures tree.random != null && fresh(tree.random)
    ensures tree.random.Valid() && tree.random.stream == stream && tree.random.position == 0
    ensures tree.valid == old(tree.valid) && tree.position == old(tree.position)
    ensures tree.nextSpawn == old(tree.nextSpawn) && tree.spawnFrequency == old(tree.spawnFrequency)
    ensures tree.spawnRadius == old(tree.spawnRadius)
  {
    tree.random := new Rng.Random(stream);
  }

  /** The spawn half of `CustomUpdate`: a new registered Food, placed by two draws of the
      tree's generator around the tree. */
  method SpawnFood(tree: Unit, guids: GuidSource, db: Database, trig: Trig) returns (food: Unit)
    requires tree.random != null && tree.random.Valid()
    requires db.Valid() && db.KeysIssuedBy(guids)
    modifies tree.random, guids, db.Repr()
    ensures db.Valid() && db.KeysIssuedBy(guids) && guids.issued == old(guids.issued) + 1
    ensures fresh(food) && food.kind == FoodKind && food.valid && food.quantity == DefaultQuantity
    ensures db.Registered(food, old(db.Contents()))
    ensures tree.random.position == old(tree.random.position) + 2
    ensures food.position == PositionAround(trig, tree.position, tree.spawnRadius,
                                            tree.random.stream(old(tree.random.position)),
                                            tree.random.stream(old(tree.random.position) + 1))
  {
    var random := tree.random;
    var angleSample := random.NextDouble();
    var distanceSample := random.NextDouble();
    food := new Unit(FoodKind, PositionAround(trig, tree.position, tree.spawnRadius, angleSample, distanceSample),
                     true, guids, db);
  }

  /** The schedule half of `CustomUpdate`, on a frame at or after `nextSpawn`. */
  method AdvanceSchedule(tree: Unit) returns (outcome: Outcome)
    requires tree.random != null && tree.random.Valid()
    modifies tree, tree.random
    ensures tree.random == old(tree.random) && tree.position == old(tree.position) && tree.valid == old(tree.valid)
    ensures tree.spawnFrequency == old(tree.spawnFrequency) && tree.spawnRadius == old(tree.spawnRadius)
    ensures tree.spawnFrequency < 0 ==>
              outcome == Thrown(ArgumentOutOfRange) && tree.nextSpawn == old(tree.nextSpawn)
              && tree.random.position == old(tree.random.position)
    ensures tree.spawnFrequency >= 0 ==>
              && outcome == Done
              && tree.random.position == old(tree.random.position) + 1
              && tree.nextSpawn - old(tree.nextSpawn)
                 == Rng.Between(tree.random.stream(old(tree.random.position)), tree.spawnFrequency, 2 * tree.spawnFrequency)
  {
    var step := tree.random.NextBetween(tree.spawnFrequency, tree.spawnFrequency * 2);
    if step.Throws? {
      return Thrown(step.error);
    }
    tree.nextSpawn := tree.nextSpawn + step.value;
    return Done;
  }

  /** `CustomUpdate(frame)` on a tree's schedule and its generator's position, drawing from
      `stream`: it was `nextSpawn` and `position` before and is `nextSpawn'` and `position'`
      after, and `spawned` says whether a Food was dropped. A drop takes two draws and comes
      first; on a frame at or after `nextSpawn` the schedule takes one more draw, or throws
      on a negative frequency without drawing. */
  ghost predicate Stepped(frame: int, stream: nat -> real, frequency: int, nextSpawn: int, position: nat,
                          nextSpawn': int, position': nat, spawned: bool, outcome: Outcome)
  {
    var drawn := position + (if spawned then 2 else 0);
    && Rng.IsSampleStream(stream)
    && (spawned <==> frame == nextSpawn)
    && (frame < nextSpawn ==> outcome == Done && nextSpawn' == nextSpawn && position' == position)
    && (frame >= nextSpawn && frequency < 0 ==>
          outcome == Thrown(ArgumentOutOfRange) && nextSpawn' == nextSpawn && position' == drawn)
    && (frame >= nextSpawn && frequency >= 0 ==>
          && outcome == Done && position' == drawn + 1
          && nextSpawn' - nextSpawn == Rng.Between(stream(drawn), frequency, 2 * frequency))
  }

  /** A step never moves the schedule back, and a lawful one moves it by at least the
      frequency and by less than twice it; only a negative frequency throws. */
  lemma SteppedSchedule(frame: int, stream: nat -> real, frequency: int, nextSpawn: int, position: nat,
                         nextSpawn': int, position': nat, spawned: bool, outcome: Outcome)
    requires Stepped(frame, stream, frequency, nextSpawn, position, nextSpawn', position', spawned, outcome)
    ensures nextSpawn' >= nextSpawn && position' >= position
    ensures outcome != Done <==> frame >= nextSpawn && frequency < 0
    ensures outcome == Done && frame >= nextSpawn && frequency > 0 ==>
              nextSpawn + frequency <= nextSpawn' < nextSpawn + 2 * frequency
    ensures frame < nextSpawn ==> nextSpawn' > frame
  {
  }

  /** `CustomUpdate(frame)`: on the frame that equals `nextSpawn`, one Food is created and
      registered at a random point around the tree; on every frame at or after `nextSpawn`,
      `nextSpawn` advances by a draw from [spawnFrequency, 2 * spawnFrequency). A negative
      frequency makes that draw throw, after any spawn of this frame. */
  method CustomUpdate(tree: Unit, frame: int, guids: GuidSource, db: Database, trig: Trig)
      returns (outcome: Outcome, spawned: Unit?)
    requires tree.kind == TreeKind && tree.random != null && tree.random.Valid()
    requires db.Valid() && db.KeysIssuedBy(guids)
    modifies tree, tree.random, guids, db.Repr()
    ensures db.Valid() && db.KeysIssuedBy(guids)
    ensures tree.random == old(tree.random) && tree.position == old(tree.position) && tree.valid == old(tree.valid)
    ensures tree.spawnFrequency == old(tree.spawnFrequency) && tree.spawnRadius == old(tree.spawnRadius)
    // the spawn: exactly on the frame `nextSpawn`, exactly one registered Food
    ensures spawned != null <==> frame == old(tree.nextSpawn)
    ensures spawned != null ==>
              && fresh(spawned) && spawned.kind == FoodKind && spawned.valid
              && spawned.quantity == DefaultQuantity
              && spawned.position == PositionAround(trig, tree.position, tree.spawnRadius,
                                                    tree.random.stream(old(tree.random.position)),
                                                    tree.random.stream(old(tree.random.position) + 1))
              && db.Registered(spawned, old(db.Contents()))
              && guids.issued == old(guids.issued) + 1
    ensures spawned == null ==> unchanged(db.Repr()) && unchanged(guids)
    // the schedule
    ensures frame < old(tree.nextSpawn) ==> outcome == Done && unchanged(tree) && unchanged(tree.random)
    ensures frame >= old(tree.nextSpawn) && tree.spawnFrequency < 0 ==>
              outcome == Thrown(ArgumentOutOfRange) && tree.nextSpawn == old(tree.nextSpawn)
    ensures frame >= old(tree.nextSpawn) && tree.spawnFrequency >= 0 ==>
              && outcome == Done
              && tree.nextSpawn - old(tree.nextSpawn)
                 == Rng.Between(tree.random.stream(old(tree.random.position) + (if spawned != null then 2 else 0)),
                                tree.spawnFrequency, 2 * tree.spawnFrequency)
    ensures outcome == Done && frame >= old(tree.nextSpawn) && tree.spawnFrequency > 0 ==>
              old(tree.nextSpawn) + tree.spawnFrequency <= tree.nextSpawn < old(tree.nextSpawn) + 2 * tree.spawnFrequency
    ensures tree.nextSpawn >= old(tree.nextSpawn)
    ensures Stepped(frame, tree.random.stream, tree.spawnFrequency, old(tree.nextSpawn), old(tree.random.position),
                    tree.nextSpawn, tree.random.position, spawned != null, outcome)
  {
    spawned := null;
    outcome := Done;
    if frame == tree.nextSpawn {
      spawned := SpawnFood(tree, guids, db, trig);
    }
    if frame >= tree.nextSpawn {
      outcome := AdvanceSchedule(tree);
    }
  }
}
