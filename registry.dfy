/** The entity registry and the units it holds.

    `ObjectDatabase<T>` is a dictionary from Guid to unit with `Added` and `Removed`
    events; `Database` owns one per unit kind, subscribes to all of their events and
    re-raises them as `UnitAdded` / `UnitRemoved`. `Unit` is the base of every entity;
    `Activate` and `Destroy` register and unregister a unit.

    Raised events are recorded as logs (one entry per invocation). The subscription of the
    database's handlers to its stores' events is modelled by the database appending to its own
    log whenever a store reports that it raised the event. The kind-specific
    fields of Food, Silica and Tree are folded into `Unit`; the C# type parameter `T` of
    `ObjectDatabase<T>` and the runtime type of a unit become a `UnitKind`. The lock
    around each store is left out: every operation here runs to completion on its own. */
module Registry {
  import opened Ids
  import opened Errors
  import opened Geometry
  import Rng

  datatype UnitKind = FoodKind | TreeKind | SilicaKind | ShelterKind | SpecimenKind | OtherKind

  /** The amount a newly created Food or Silica carries. */
  const DefaultQuantity: real := 10.0
  /** A newly created Tree's spawn radius and spawn period in frames. */
  const DefaultSpawnRadius: real := 30.0
  const DefaultSpawnFrequency: int := 30

  class Unit {
    const kind: UnitKind
    const id: Guid
    var valid: bool
    var position: Vec3
    /** Food and Silica: `quantity`. */
    var quantity: real
    /** Units of kind Specimen: their fitness `score`. */
    var score: real
    /** Trees: `spawnRadius`, `spawnFrequency`, `nextSpawn` and the private generator. */
    var spawnRadius: real
    var spawnFrequency: int
    var nextSpawn: int
    var random: Rng.Random?

    /** `Unit(addToDatabase)` with the initialisers of the concrete kind: a fresh Guid, and
        when `addToDatabase` holds the unit is registered at once. `position` is the value an
        object initialiser (`new Food(true) { Position = p }`) assigns right after
        construction; nothing observes a unit between the two. */
    constructor (kind: UnitKind, position: Vec3, addToDatabase: bool, guids: GuidSource, db: Database)
      requires db.Valid() && db.KeysIssuedBy(guids)
      modifies guids, db.Repr()
      ensures this.kind == kind && id == Guid(old(guids.issued) + 1)
      ensures guids.issued == old(guids.issued) + 1
      ensures db.Valid() && db.KeysIssuedBy(guids)
      ensures valid == addToDatabase
      ensures this.position == position && score == 0.0 && nextSpawn == 0 && random == null
      ensures quantity == (if kind == FoodKind || kind == SilicaKind then DefaultQuantity else 0.0)
      ensures spawnRadius == (if kind == TreeKind then DefaultSpawnRadius else 0.0)
      ensures spawnFrequency == (if kind == TreeKind then DefaultSpawnFrequency else 0)
      ensures addToDatabase && kind != OtherKind ==> db.Registered(this, old(db.Contents()))
      ensures addToDatabase && kind == OtherKind ==> unchanged(db.Repr())
      ensures !addToDatabase ==> unchanged(db.Repr())
    {
      ghost var before := db.Contents();
      var g := guids.NewGuid();
      this.kind := kind;
      id := g;
      valid := false;
      this.position := position;
      score := 0.0;
      quantity := if kind == FoodKind || kind == SilicaKind then DefaultQuantity else 0.0;
      spawnRadius := if kind == TreeKind then DefaultSpawnRadius else 0.0;
      spawnFrequency := if kind == TreeKind then DefaultSpawnFrequency else 0;
      nextSpawn := 0;
      random := null;
      new;
      if addToDatabase {
        before.FreshIdIsAbsent(old(guids.issued), this);
        var outcome := Activate(db);
        if db.Registered(this, before) {
          before.RegisterKeepsIds(this, old(guids.issued), guids.issued);
        }
      }
    }

    /** `Activate()`: registers the unit and marks it valid. A unit with the empty Guid makes
        `Database.Add` throw, and then the unit stays as it was. */
    method Activate(db: Database) returns (outcome: Outcome)
      requires db.Valid()
      modifies this, db.Repr()
      ensures db.Valid()
      ensures outcome == (if id == Empty then Thrown(InvalidOperation) else Done)
      ensures outcome == Done ==> valid
      ensures outcome != Done ==> valid == old(valid)
      ensures position == old(position) && score == old(score) && quantity == old(quantity)
      ensures nextSpawn == old(nextSpawn) && random == old(random)
      ensures spawnRadius == old(spawnRadius) && spawnFrequency == old(spawnFrequency)
      ensures outcome == Done ==>
                db.Registered(this, old(db.Contents())) || (db.AlreadyThere(this, old(db.Contents())) && unchanged(db.Repr()))
      ensures outcome != Done ==> unchanged(db.Repr())
    {
      var r := db.Add(this);
      if r.Throws? {
        return Thrown(r.error);
      }
      valid := true;
      return Done;
    }

    /** `Destroy()`: unregisters the unit and marks it invalid. */
    method Destroy(db: Database) returns (outcome: Outcome)
      requires db.Valid()
      modifies this, db.Repr()
      ensures db.Valid()
      ensures outcome == (if id == Empty then Thrown(InvalidOperation) else Done)
      ensures outcome == Done ==> !valid
      ensures outcome != Done ==> valid == old(valid)
      ensures position == old(position) && score == old(score) && quantity == old(quantity)
      ensures nextSpawn == old(nextSpawn) && random == old(random)
      ensures spawnRadius == old(spawnRadius) && spawnFrequency == old(spawnFrequency)
      ensures outcome == Done ==>
                db.Unregistered(this, old(db.Contents())) || (db.AlreadyGone(this, old(db.Contents())) && unchanged(db.Repr()))
      ensures outcome != Done ==> unchanged(db.Repr())
    {
      var r := db.Remove(this);
      if r.Throws? {
        return Thrown(r.error);
      }
      valid := false;
      return Done;
    }

    /** `Equals(Unit other)`: units are equal iff their Guids are. */
    predicate Equals(other: Unit)
    {
      id == other.id
    }

    /** `Equals(object obj)`: only a unit can be equal to a unit. */
    predicate EqualsObject(obj: Unit?)
    {
      obj != null && Equals(obj)
    }

    /** `GetHashCode()`. */
    function GetHashCode(): int
    {
      HashOf(id)
    }
  }

  /** Equality of units is an equivalence, and equal units hash alike. */
  lemma UnitEqualityIsEquivalence(a: Unit, b: Unit, c: Unit)
    ensures a.Equals(a)
    ensures a.Equals(b) <==> b.Equals(a)
    ensures a.Equals(b) && b.Equals(c) ==> a.Equals(c)
    ensures a.Equals(b) ==> a.GetHashCode() == b.GetHashCode()
    ensures a.EqualsObject(b) <==> a.id == b.id
  {
  }

  /** `ObjectDatabase<T>`: the units of one kind, by Guid. */
  class ObjectDatabase {
    const kind: UnitKind
    var objects: map<Guid, Unit>
    /** Every invocation of `Added` / `Removed`, in order. */
    var added: seq<Unit>
    var removed: seq<Unit>

    /** Every unit is stored under its own Guid and is of this store's kind. */
    ghost predicate Valid()
      reads this
    {
      forall k | k in objects :: objects[k].id == k && objects[k].kind == kind
    }

    constructor (kind: UnitKind)
      ensures Valid() && this.kind == kind
      ensures objects == map[] && added == [] && removed == []
    {
      this.kind := kind;
      objects := map[];
      added, removed := [], [];
    }

    /** `Add(obj)`: a unit whose Guid is already present is rejected; otherwise it is stored
        and `Added` is raised once. */
    method Add(obj: Unit) returns (ok: bool)
      requires Valid() && obj.kind == kind
      modifies this
      ensures Valid()
      ensures ok == (obj.id !in old(objects))
      ensures ok ==> objects == old(objects)[obj.id := obj] && added == old(added) + [obj]
      ensures !ok ==> unchanged(this)
      ensures removed == old(removed)
    {
      if obj.id in objects {
        return false;
      }
      objects := objects[obj.id := obj];
      added := added + [obj];
      return true;
    }

    /** `Remove(obj)`: a unit whose Guid is absent is rejected; otherwise exactly that key is
        deleted and `Removed` is raised once. */
    method Remove(obj: Unit) returns (ok: bool)
      requires Valid()
      modifies this
      ensures Valid()
      ensures ok == (obj.id in old(objects))
      ensures ok ==> objects == old(objects) - {obj.id} && removed == old(removed) + [obj]
      ensures !ok ==> unchanged(this)
      ensures added == old(added)
    {
      if obj.id !in objects {
        return false;
      }
      objects := objects - {obj.id};
      removed := removed + [obj];
      return true;
    }

    /** `GetEnumerator()`: the stored units, each under its own Guid. */
    function Values(): (r: set<Unit>)
      requires Valid()
      reads this
      ensures forall k | k in objects :: objects[k] in r
      ensures forall u | u in r :: u.id in objects && objects[u.id] == u
    {
      objects.Values
    }
  }

  /** Adding a unit and then removing it restores the store. */
  lemma AddThenRemoveRestores(before: map<Guid, Unit>, u: Unit)
    requires u.id !in before
    ensures before[u.id := u] - {u.id} == before
  {
  }

  /** What a unit-level view of the registry holds: one map per kind. */
  datatype Snapshot = Snapshot(
    food: map<Guid, Unit>, trees: map<Guid, Unit>, silica: map<Guid, Unit>,
    shelters: map<Guid, Unit>, specimen: map<Guid, Unit>)
  {
    /** The map that holds units of kind `k` (none for an unknown kind). */
    function Of(k: UnitKind): map<Guid, Unit>
    {
      match k
      case FoodKind => food
      case TreeKind => trees
      case SilicaKind => silica
      case ShelterKind => shelters
      case SpecimenKind => specimen
      case OtherKind => map[]
    }

    /** The same contents with the map of kind `k` replaced (an unknown kind changes nothing). */
    function With(k: UnitKind, m: map<Guid, Unit>): (c: Snapshot)
      ensures k != OtherKind ==> c.Of(k) == m
      ensures forall j | j != k :: c.Of(j) == Of(j)
    {
      match k
      case FoodKind => this.(food := m)
      case TreeKind => this.(trees := m)
      case SilicaKind => this.(silica := m)
      case ShelterKind => this.(shelters := m)
      case SpecimenKind => this.(specimen := m)
      case OtherKind => this
    }

    /** Every stored Guid is one of the first `n` a `GuidSource` issues. */
    ghost predicate IdsAtMost(n: nat)
    {
      IdsWithin(food, n) && IdsWithin(trees, n) && IdsWithin(silica, n)
      && IdsWithin(shelters, n) && IdsWithin(specimen, n)
    }

    /** A Guid above every stored one is in no store. */
    lemma FreshIdIsAbsent(n: nat, u: Unit)
      requires IdsAtMost(n) && u.id.value > n
      ensures u.id !in Of(u.kind)
    {
    }

    /** Storing a unit whose Guid was issued keeps every stored Guid issued. */
    lemma RegisterKeepsIds(u: Unit, m: nat, n: nat)
      requires IdsAtMost(m) && m <= n && 1 <= u.id.value <= n
      ensures With(u.kind, Of(u.kind)[u.id := u]).IdsAtMost(n)
    {
    }
  }

  /** Every key of `m` is one of the first `n` Guids issued. */
  ghost predicate IdsWithin(m: map<Guid, Unit>, n: nat)
  {
    forall g | g in m :: 1 <= g.value <= n
  }

  /** `Database`: one store per kind and the forwarded events. */
  class Database {
    const food: ObjectDatabase
    const trees: ObjectDatabase
    const silica: ObjectDatabase
    const shelters: ObjectDatabase
    const specimen: ObjectDatabase
    var unitAdded: seq<Unit>
    var unitRemoved: seq<Unit>
    /** The objects the database consists of. */
    ghost function Repr(): set<object>
    {
      {this, food, trees, silica, shelters, specimen}
    }

    /** The store for kind `k` (none for an unknown kind). */
    function StoreFor(k: UnitKind): ObjectDatabase?
    {
      match k
      case FoodKind => food
      case TreeKind => trees
      case SilicaKind => silica
      case ShelterKind => shelters
      case SpecimenKind => specimen
      case OtherKind => null
    }

    ghost predicate Valid()
      reads this, Repr()
    {
      && food.kind == FoodKind && trees.kind == TreeKind && silica.kind == SilicaKind
      && shelters.kind == ShelterKind && specimen.kind == SpecimenKind
      && food.Valid() && trees.Valid() && silica.Valid() && shelters.Valid() && specimen.Valid()
    }

    ghost function Contents(): Snapshot
      reads this, Repr()
    {
      Snapshot(food.objects, trees.objects, silica.objects, shelters.objects, specimen.objects)
    }

    /** Every stored Guid was handed out by `guids`. */
    ghost predicate KeysIssuedBy(guids: GuidSource)
      reads this, Repr(), guids
    {
      Contents().IdsAtMost(guids.issued)
    }

    /** `u` was added to its kind's store, whose old contents were `before`; `Added` and
        `UnitAdded` were raised once each, and no other store changed. */
    ghost predicate Registered(u: Unit, before: Snapshot)
      reads this, Repr()
    {
      u.kind != OtherKind && u.id !in before.Of(u.kind)
      && Contents() == before.With(u.kind, before.Of(u.kind)[u.id := u])
    }

    /** Adding `u` was rejected: an unknown kind, or its Guid was already present. */
    ghost predicate AlreadyThere(u: Unit, before: Snapshot)
      reads this, Repr()
    {
      (u.kind == OtherKind || u.id in before.Of(u.kind)) && Contents() == before
    }

    ghost predicate Unregistered(u: Unit, before: Snapshot)
      reads this, Repr()
    {
      u.kind != OtherKind && u.id in before.Of(u.kind)
      && Contents() == before.With(u.kind, before.Of(u.kind) - {u.id})
    }

    ghost predicate AlreadyGone(u: Unit, before: Snapshot)
      reads this, Repr()
    {
      (u.kind == OtherKind || u.id !in before.Of(u.kind)) && Contents() == before
    }

    /** `new Database()`: five empty stores, each with its events forwarded. */
    constructor ()
      ensures Valid() && fresh(Repr())
      ensures Contents() == Snapshot(map[], map[], map[], map[], map[])
      ensures unitAdded == [] && unitRemoved == []
    {
      food := new ObjectDatabase(FoodKind);
      trees := new ObjectDatabase(TreeKind);
      silica := new ObjectDatabase(SilicaKind);
      shelters := new ObjectDatabase(ShelterKind);
      specimen := new ObjectDatabase(SpecimenKind);
      unitAdded, unitRemoved := [], [];
    }

    /** Registering a unit adds one entry to its kind's store and touches no other store. */
    lemma RegisteredAddsOne(u: Unit, before: Snapshot)
      requires Registered(u, before)
      ensures |Contents().Of(u.kind)| == |before.Of(u.kind)| + 1
      ensures u.id in Contents().Of(u.kind) && Contents().Of(u.kind)[u.id] == u
      ensures forall k | k != u.kind :: Contents().Of(k) == before.Of(k)
      ensures forall g | g in before.Of(u.kind) :: g in Contents().Of(u.kind) && Contents().Of(u.kind)[g] == before.Of(u.kind)[g]
    {
    }

    /** `Database.Add(unit)`: the empty Guid throws; otherwise the unit goes to the store of
        its own kind, and an unknown kind is rejected. The store's `Added` event is re-raised
        as `UnitAdded`. */
    method Add(unit: Unit) returns (r: Result<bool>)
      requires Valid()
      modifies Repr()
      ensures Valid()
      ensures unit.id == Empty ==> r == Throws(InvalidOperation)
      ensures unit.id != Empty ==> r == Ok(unit.kind != OtherKind && unit.id !in old(Contents().Of(unit.kind)))
      ensures r == Ok(true) ==> Registered(unit, old(Contents()))
      ensures r == Ok(true) ==> unitAdded == old(unitAdded) + [unit] && unitRemoved == old(unitRemoved)
      ensures r == Ok(true) ==> StoreFor(unit.kind).added == old(StoreFor(unit.kind).added) + [unit]
      ensures r != Ok(true) ==> unchanged(Repr())
    {
      if unit.id == Empty {
        return Throws(InvalidOperation);
      }
      var ok: bool;
      match unit.kind {
        case FoodKind => ok := food.Add(unit);
        case TreeKind => ok := trees.Add(unit);
        case SilicaKind => ok := silica.Add(unit);
        case ShelterKind => ok := shelters.Add(unit);
        case SpecimenKind => ok := specimen.Add(unit);
        case OtherKind => ok := false;
      }
      if ok {
        unitAdded := unitAdded + [unit];
      }
      return Ok(ok);
    }

    /** `Database.Remove(unit)`: symmetric to `Add`, re-raising `Removed` as `UnitRemoved`. */
    method Remove(unit: Unit) returns (r: Result<bool>)
      requires Valid()
      modifies Repr()
      ensures Valid()
      ensures unit.id == Empty ==> r == Throws(InvalidOperation)
      ensures unit.id != Empty ==> r == Ok(unit.kind != OtherKind && unit.id in old(Contents().Of(unit.kind)))
      ensures r == Ok(true) ==> Unregistered(unit, old(Contents()))
      ensures r == Ok(true) ==> unitRemoved == old(unitRemoved) + [unit] && unitAdded == old(unitAdded)
      ensures r == Ok(true) ==> StoreFor(unit.kind).removed == old(StoreFor(unit.kind).removed) + [unit]
      ensures r != Ok(true) ==> unchanged(Repr())
    {
      if unit.id == Empty {
        return Throws(InvalidOperation);
      }
      var ok: bool;
      match unit.kind {
        case FoodKind => ok := food.Remove(unit);
        case TreeKind => ok := trees.Remove(unit);
        case SilicaKind => ok := silica.Remove(unit);
        case ShelterKind => ok := shelters.Remove(unit);
        case SpecimenKind => ok := specimen.Remove(unit);
        case OtherKind => ok := false;
      }
      if ok {
        unitRemoved := unitRemoved + [unit];
      }
      return Ok(ok);
    }
  }
}
