/** `GlobalExtensions.Remove(IList<T>, Predicate<T>)`: removes, in place, every element
    of a list that satisfies a predicate, walking the list backwards with `RemoveAt`. */
module GlobalExtensions {

  /** A mutable list (`IList<T>`), with the two members the extension uses. */
  class List<T> {
    var items: seq<T>

    constructor (items: seq<T>)
      ensures this.items == items
    {
      this.items := items;
    }

    /** `IList<T>.RemoveAt(index)`. */
    method RemoveAt(index: nat)
      requires index < |items|
      modifies this
      ensures items == old(items[..index] + items[index + 1..])
    {
      items := items[..index] + items[index + 1..];
    }
  }

  /** The elements of `s` that do not satisfy `p`, in their original order. */
  function Without<T>(s: seq<T>, p: T -> bool): seq<T>
  {
    if s == [] then []
    else if p(s[0]) then Without(s[1..], p)
    else [s[0]] + Without(s[1..], p)
  }

  /** The number of elements of `s` that satisfy `p`. */
  function CountMatching<T>(s: seq<T>, p: T -> bool): nat
  {
    if s == [] then 0
    else (if p(s[0]) then 1 else 0) + CountMatching(s[1..], p)
  }

  /** `list.Remove(predicate)`. */
  method Remove<T>(list: List<T>, matches: T -> bool)
    modifies list
    ensures list.items == Without(old(list.items), matches)
  {
    ghost var original := list.items;
    var i := |list.items| - 1;
    while i >= 0
      invariant -1 <= i < |original|
      invariant list.items == original[..i + 1] + Without(original[i + 1..], matches)
    {
      assert original[i..] == [original[i]] + original[i + 1..];
      if matches(list.items[i]) {
        list.RemoveAt(i);
        assert original[..i + 1] == original[..i] + [original[i]];
      } else {
        assert original[..i + 1] == original[..i] + [original[i]];
      }
      i := i - 1;
    }
    assert original[0..] == original;
  }

  lemma {:induction false} WithoutNoneMatch<T>(s: seq<T>, p: T -> bool)
    ensures forall x | x in Without(s, p) :: !p(x)
  {
    if s != [] {
      WithoutNoneMatch(s[1..], p);
    }
  }

  lemma {:induction false} WithoutLength<T>(s: seq<T>, p: T -> bool)
    ensures |Without(s, p)| == |s| - CountMatching(s, p)
  {
    if s != [] {
      WithoutLength(s[1..], p);
    }
  }

  /** Order and multiplicity: an element that does not match keeps all its copies,
      one that matches keeps none. */
  lemma {:induction false} WithoutMultiplicity<T>(s: seq<T>, p: T -> bool, x: T)
    ensures multiset(Without(s, p))[x] == if p(x) then 0 else multiset(s)[x]
  {
    if s != [] {
      WithoutMultiplicity(s[1..], p, x);
      assert s == [s[0]] + s[1..];
    }
  }

  /** Removing twice removes nothing more. */
  lemma {:induction false} WithoutIdempotent<T>(s: seq<T>, p: T -> bool)
    ensures Without(Without(s, p), p) == Without(s, p)
  {
    if s != [] {
      WithoutIdempotent(s[1..], p);
      if !p(s[0]) {
        assert ([s[0]] + Without(s[1..], p))[1..] == Without(s[1..], p);
      }
    }
  }
}
