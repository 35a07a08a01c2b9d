/** `NeuralIdEqualityComparer`: pairs of a specimen and its network are the same pair iff
    their networks carry the same `Id`, whatever the specimens. A network's `Id` is the text
    of a Guid and is modelled as that Guid, so a pair is modelled by its item and the Guid
    of its network. `ToHashSet` with this comparer keeps, in input order, the first pair of
    every network id (a `HashSet` that is only added to enumerates in insertion order). */
module Comparers {
  import opened Ids

  /** `(item, network)`, with the network represented by its `Id`. */
  datatype Keyed<T> = Keyed(item: T, netId: Guid)

  /** `Equals(x, y)`. */
  predicate Same<T>(x: Keyed<T>, y: Keyed<T>)
  {
    x.netId == y.netId
  }

  /** `GetHashCode(obj)`: the hash of the network's `Id`. */
  function HashCode<T>(x: Keyed<T>): int
  {
    HashOf(x.netId)
  }

  /** The item is ignored: pairs with the same network are the same however their items differ. */
  lemma SameIgnoresItem<T>(a: T, b: T, g: Guid, h: Guid)
    ensures Same(Keyed(a, g), Keyed(b, h)) <==> g == h
  {
  }

  /** The comparer is an equivalence relation. */
  lemma SameIsEquivalence<T>(x: Keyed<T>, y: Keyed<T>, z: Keyed<T>)
    ensures Same(x, x)
    ensures Same(x, y) ==> Same(y, x)
    ensures Same(x, y) && Same(y, z) ==> Same(x, z)
  {
  }

  /** Pairs the comparer calls equal have equal hash codes. */
  lemma SameHashCode<T>(x: Keyed<T>, y: Keyed<T>)
    requires Same(x, y)
    ensures HashCode(x) == HashCode(y)
  {
  }

  /** `s[i]` is the first pair of `s` with its network id. */
  predicate IsFirstOfNetwork<T>(s: seq<Keyed<T>>, i: nat)
    requires i < |s|
  {
    forall i' | 0 <= i' < i :: s[i'].netId != s[i].netId
  }

  /** No two pairs of `s` have the same network. */
  predicate DistinctNetworks<T>(s: seq<Keyed<T>>)
  {
    forall i, j | 0 <= i < j < |s| :: s[i].netId != s[j].netId
  }

  /** The network ids of the pairs of `s`. */
  function Networks<T>(s: seq<Keyed<T>>): set<Guid>
  {
    set i | 0 <= i < |s| :: s[i].netId
  }

  /** Adding the pairs of `s` in order to a set that already holds the networks `seen`: the
      pairs that were added, in the order they were added. */
  function AddAll<T>(s: seq<Keyed<T>>, seen: set<Guid>): (r: seq<Keyed<T>>)
    ensures |r| <= |s|
    decreases |s|
  {
    if s == [] then []
    else if s[0].netId in seen then AddAll(s[1..], seen)
    else [s[0]] + AddAll(s[1..], seen + {s[0].netId})
  }

  /** `s.ToHashSet(new NeuralIdEqualityComparer())`, enumerated. */
  function ToHashSet<T>(s: seq<Keyed<T>>): (r: seq<Keyed<T>>)
    ensures |r| <= |s|
  {
    AddAll(s, {})
  }

  /** The added pairs have distinct networks, none of them already seen, ... */
  lemma {:induction false} AddAllIsDistinct<T>(s: seq<Keyed<T>>, seen: set<Guid>)
    ensures DistinctNetworks(AddAll(s, seen))
    ensures forall x | x in AddAll(s, seen) :: x.netId !in seen
    decreases |s|
  {
    if s != [] {
      if s[0].netId in seen {
        AddAllIsDistinct(s[1..], seen);
      } else {
        AddAllIsDistinct(s[1..], seen + {s[0].netId});
        var rest := AddAll(s[1..], seen + {s[0].netId});
        assert AddAll(s, seen) == [s[0]] + rest;
        forall i, j | 0 <= i < j < |AddAll(s, seen)|
          ensures AddAll(s, seen)[i].netId != AddAll(s, seen)[j].netId
        {
          if i == 0 {
            assert AddAll(s, seen)[j] == rest[j - 1];
            assert rest[j - 1] in rest;
          } else {
            assert AddAll(s, seen)[i] == rest[i - 1] && AddAll(s, seen)[j] == rest[j - 1];
          }
        }
      }
    }
  }

  /** ... every added pair comes from `s`, ... */
  lemma {:induction false} AddAllIsFromInput<T>(s: seq<Keyed<T>>, seen: set<Guid>)
    ensures forall x | x in AddAll(s, seen) :: x in s
    decreases |s|
  {
    if s != [] {
      var seen' := if s[0].netId in seen then seen else seen + {s[0].netId};
      AddAllIsFromInput(s[1..], seen');
      assert forall x | x in s[1..] :: x in s;
    }
  }

  lemma NetworksOfCons<T>(x: Keyed<T>, t: seq<Keyed<T>>)
    ensures Networks([x] + t) == {x.netId} + Networks(t)
  {
    var r := [x] + t;
    forall g | g in Networks(r) ensures g in {x.netId} + Networks(t) {
      var i :| 0 <= i < |r| && r[i].netId == g;
      if i > 0 { assert r[i] == t[i - 1]; }
    }
    forall g | g in {x.netId} + Networks(t) ensures g in Networks(r) {
      if g == x.netId {
        assert r[0] == x;
      } else {
        var i :| 0 <= i < |t| && t[i].netId == g;
        assert r[i + 1] == t[i];
      }
    }
  }

  /** ... every network of `s` not seen before is added, ... */
  lemma {:induction false} AddAllCoversInput<T>(s: seq<Keyed<T>>, seen: set<Guid>)
    ensures Networks(AddAll(s, seen)) == Networks(s) - seen
    decreases |s|
  {
    if s != [] {
      var seen' := if s[0].netId in seen then seen else seen + {s[0].netId};
      AddAllCoversInput(s[1..], seen');
      assert s == [s[0]] + s[1..];
      NetworksOfCons(s[0], s[1..]);
      if s[0].netId !in seen {
        NetworksOfCons(s[0], AddAll(s[1..], seen'));
      }
    }
  }

  /** ... and the pair added for a network is the first pair of `s` with it. */
  lemma {:induction false} AddAllKeepsFirst<T>(s: seq<Keyed<T>>, seen: set<Guid>, i: nat)
    requires i < |s| && IsFirstOfNetwork(s, i) && s[i].netId !in seen
    ensures s[i] in AddAll(s, seen)
    decreases |s|
  {
    if i > 0 {
      assert s[0].netId != s[i].netId;
      var seen' := if s[0].netId in seen then seen else seen + {s[0].netId};
      assert IsFirstOfNetwork(s[1..], i - 1) by {
        forall i' | 0 <= i' < i - 1 ensures s[1..][i'].netId != s[1..][i - 1].netId {
          assert s[1..][i'] == s[i' + 1];
        }
      }
      AddAllKeepsFirst(s[1..], seen', i - 1);
    }
  }

  /** After `ToHashSet` exactly the networks of the input remain, one pair each, and that
      pair is the first of the input with its network. */
  lemma ToHashSetKeepsFirstOfEachNetwork<T>(s: seq<Keyed<T>>)
    ensures forall i, j | 0 <= i < j < |ToHashSet(s)| :: !Same(ToHashSet(s)[i], ToHashSet(s)[j])
    ensures Networks(ToHashSet(s)) == Networks(s)
    ensures forall x | x in ToHashSet(s) :: x in s
    ensures forall i | 0 <= i < |s| && IsFirstOfNetwork(s, i) :: s[i] in ToHashSet(s)
  {
    AddAllIsDistinct(s, {});
    AddAllCoversInput(s, {});
    AddAllIsFromInput(s, {});
    forall i | 0 <= i < |s| && IsFirstOfNetwork(s, i)
      ensures s[i] in ToHashSet(s)
    {
      AddAllKeepsFirst(s, {}, i);
    }
  }

  /** An input whose networks are already distinct passes through unchanged. */
  lemma {:induction false} AddAllOfDistinct<T>(s: seq<Keyed<T>>, seen: set<Guid>)
    requires DistinctNetworks(s) && Networks(s) !! seen
    ensures AddAll(s, seen) == s
    decreases |s|
  {
    if s != [] {
      assert s[0].netId in Networks(s);
      assert Networks(s[1..]) !! seen + {s[0].netId} by {
        forall i | 0 <= i < |s[1..]|
          ensures s[1..][i].netId !in seen + {s[0].netId}
        {
          assert s[1..][i] == s[i + 1];
          assert s[i + 1].netId in Networks(s);
        }
      }
      AddAllOfDistinct(s[1..], seen + {s[0].netId});
    }
  }

  lemma ToHashSetOfDistinct<T>(s: seq<Keyed<T>>)
    requires DistinctNetworks(s)
    ensures ToHashSet(s) == s
  {
    AddAllOfDistinct(s, {});
  }
}
