/** LINQ's `OrderBy` and `OrderByDescending` are stable sorts: elements with equal keys
    keep the order they had in the input. Tagging every element with its input position
    turns "stable by key" into "strictly increasing by (key, position)", which is what
    `Sort` below produces. `OrderByDescending` is `OrderBy` on the negated key. */
module Ordering {

  /** One element to be ordered: its sort key and its position in the input. */
  datatype Entry = Entry(key: real, tag: int)

  /** Lexicographic order on (key, tag). */
  predicate Precedes(a: Entry, b: Entry)
  {
    a.key < b.key || (a.key == b.key && a.tag <= b.tag)
  }

  ghost predicate SortedByKeyThenTag(s: seq<Entry>)
  {
    forall i, j :: 0 <= i < j < |s| ==> Precedes(s[i], s[j])
  }

  /** The tags of the input are its positions: strictly increasing. */
  ghost predicate TagsIncrease(s: seq<Entry>)
  {
    forall i, j :: 0 <= i < j < |s| ==> s[i].tag < s[j].tag
  }

  function Insert(e: Entry, s: seq<Entry>): (r: seq<Entry>)
    requires SortedByKeyThenTag(s)
    ensures SortedByKeyThenTag(r)
    ensures multiset(r) == multiset(s) + multiset{e}
    ensures |r| == |s| + 1
  {
    if s == [] then [e]
    else if Precedes(e, s[0]) then
      PrependSorted(e, s);
      [e] + s
    else
      var rest := Insert(e, s[1..]);
      assert s == [s[0]] + s[1..];
      HeadPrecedesInsert(e, s, rest);
      PrependSorted(s[0], rest);
      [s[0]] + rest
  }

  lemma HeadPrecedesInsert(e: Entry, s: seq<Entry>, rest: seq<Entry>)
    requires s != [] && SortedByKeyThenTag(s) && !Precedes(e, s[0])
    requires multiset(rest) == multiset(s[1..]) + multiset{e}
    ensures forall y | y in rest :: Precedes(s[0], y)
  {
    forall y | y in rest ensures Precedes(s[0], y) {
      assert y in multiset(rest);
      if y != e {
        assert y in multiset(s[1..]);
        var k :| 0 <= k < |s[1..]| && s[1..][k] == y;
        assert s[k + 1] == y;
      }
    }
  }

  lemma PrependSorted(x: Entry, t: seq<Entry>)
    requires SortedByKeyThenTag(t)
    requires forall y | y in t :: Precedes(x, y)
    ensures SortedByKeyThenTag([x] + t)
  {
    var u := [x] + t;
    forall i, j | 0 <= i < j < |u| ensures Precedes(u[i], u[j]) {
      if i == 0 {
        assert u[j] == t[j - 1];
        assert t[j - 1] in t;
      } else {
        assert u[i] == t[i - 1] && u[j] == t[j - 1];
      }
    }
  }

  /** The stable sort: a permutation of the input in (key, tag) order. */
  function Sort(s: seq<Entry>): (r: seq<Entry>)
    ensures SortedByKeyThenTag(r)
    ensures multiset(r) == multiset(s)
    ensures |r| == |s|
  {
    if s == [] then []
    else
      assert s == [s[0]] + s[1..];
      Insert(s[0], Sort(s[1..]))
  }

  /** LINQ's `Take(n)`. */
  function Take<T>(s: seq<T>, n: nat): (r: seq<T>)
    ensures |r| == if n < |s| then n else |s|
    ensures forall i :: 0 <= i < |r| ==> r[i] == s[i]
  {
    if n < |s| then s[..n] else s
  }

  /** The first element of the sorted sequence has the least key, and among the
      elements with that key the least tag (the first in input order). */
  lemma {:induction false} SortFirstIsLeast(s: seq<Entry>, x: Entry)
    requires x in s
    ensures |Sort(s)| > 0
    ensures Precedes(Sort(s)[0], x)
  {
    var r := Sort(s);
    assert x in multiset(s);
    assert x in multiset(r);
    var k :| 0 <= k < |r| && r[k] == x;
    if k > 0 {
      assert Precedes(r[0], r[k]);
    }
  }

  /** Two sequences that hold the same entries, all with distinct tags, and are both in
      (key, tag) order are equal: the stable order is unique, so `Sort` is the only
      possible result of a stable sort. */
  lemma {:induction false} SortedPermutationsAreEqual(a: seq<Entry>, b: seq<Entry>)
    requires multiset(a) == multiset(b)
    requires SortedByKeyThenTag(a) && SortedByKeyThenTag(b)
    requires forall i, j :: 0 <= i < j < |a| ==> a[i].tag != a[j].tag
    ensures a == b
  {
    if a != [] {
      assert |a| == |multiset(a)| == |b|;
      assert a[0] in multiset(b);
      assert b[0] in multiset(a);
      var i :| 0 <= i < |b| && b[i] == a[0];
      var j :| 0 <= j < |a| && a[j] == b[0];
      assert Precedes(b[0], b[i]);
      assert Precedes(a[0], a[j]);
      assert a[0] == b[0];
      assert a == [a[0]] + a[1..];
      assert b == [b[0]] + b[1..];
      assert multiset(a) == multiset{a[0]} + multiset(a[1..]);
      assert multiset(b) == multiset{a[0]} + multiset(b[1..]);
      assert multiset(a[1..]) == multiset(a) - multiset{a[0]};
      assert multiset(b[1..]) == multiset(b) - multiset{a[0]};
      SortedPermutationsAreEqual(a[1..], b[1..]);
    }
  }

  /** The first `n` entries of the sorted sequence are the least `n`: an entry of `s` they
      leave out is preceded by every entry they keep, and none is left out when fewer than
      `n` are kept. */
  lemma TakeSortedIsLeast(s: seq<Entry>, n: nat, x: Entry)
    requires x in s
    ensures x in Take(Sort(s), n) || forall k | 0 <= k < |Take(Sort(s), n)| :: Precedes(Take(Sort(s), n)[k], x)
    ensures |Take(Sort(s), n)| < n ==> x in Take(Sort(s), n)
  {
    var sorted := Sort(s);
    var r := Take(sorted, n);
    assert x in multiset(s);
    assert x in multiset(sorted);
    var p :| 0 <= p < |sorted| && sorted[p] == x;
    if p < |r| {
      assert r[p] == x;
    } else {
      forall k | 0 <= k < |r|
        ensures Precedes(r[k], x)
      {
        assert r[k] == sorted[k];
      }
    }
  }

  /** An entry of a sequence whose tags are distinct occurs in it at most once. */
  lemma {:induction false} DistinctTagsOccurOnce(s: seq<Entry>, x: Entry)
    requires forall i, j :: 0 <= i < j < |s| ==> s[i].tag != s[j].tag
    ensures multiset(s)[x] <= 1
  {
    if s != [] {
      assert s == [s[0]] + s[1..];
      assert forall i, j :: 0 <= i < j < |s[1..]| ==> s[1..][i] == s[i + 1] && s[1..][j] == s[j + 1];
      DistinctTagsOccurOnce(s[1..], x);
      if s[0] == x {
        forall k | 0 <= k < |s[1..]|
          ensures s[1..][k] != x
        {
          assert s[1..][k] == s[k + 1];
        }
        assert x !in s[1..];
      }
    }
  }

  /** An entry found at two positions occurs at least twice. */
  lemma RepeatedOccursTwice(s: seq<Entry>, i: nat, j: nat)
    requires i < j < |s|
    ensures s[i] == s[j] ==> multiset(s)[s[i]] >= 2
  {
    assert s == s[..j] + [s[j]] + s[j + 1..];
    assert s[..j][i] == s[i];
    assert s[i] in multiset(s[..j]);
  }

  /** Sorting entries with distinct tags keeps their tags distinct. */
  lemma SortKeepsTagsDistinct(s: seq<Entry>)
    requires forall i, j :: 0 <= i < j < |s| ==> s[i].tag != s[j].tag
    ensures forall i, j :: 0 <= i < j < |Sort(s)| ==> Sort(s)[i].tag != Sort(s)[j].tag
  {
    var r := Sort(s);
    forall i, j | 0 <= i < j < |r|
      ensures r[i].tag != r[j].tag
    {
      assert r[i] in multiset(s) && r[j] in multiset(s);
      var p :| 0 <= p < |s| && s[p] == r[i];
      var q :| 0 <= q < |s| && s[q] == r[j];
      DistinctTagsOccurOnce(s, r[i]);
      RepeatedOccursTwice(r, i, j);
    }
  }
}
