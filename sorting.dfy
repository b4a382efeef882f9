/** The ordering behind a database `sort` stage, as a function on sequences: an
    insertion sort by an "at least as high as" relation, plus `limit`. The database
    promises no particular order among ties; this one keeps the input order of ties.
    The lemmas below do not depend on that choice. */
module Sorting {

  /** `atLeast` ranks every pair of values. */
  ghost predicate Total<T(!new)>(atLeast: (T, T) -> bool) {
    forall a: T, b: T :: atLeast(a, b) || atLeast(b, a)
  }

  ghost predicate Transitive<T(!new)>(atLeast: (T, T) -> bool) {
    forall a: T, b: T, c: T :: atLeast(a, b) && atLeast(b, c) ==> atLeast(a, c)
  }

  /** Every element ranks at least as high as every later one. */
  predicate SortedBy<T>(s: seq<T>, atLeast: (T, T) -> bool) {
    forall i, j | 0 <= i < j < |s| :: atLeast(s[i], s[j])
  }

  /** Places `x` in front of the first element it ranks at least as high as. */
  function Insert<T>(x: T, s: seq<T>, atLeast: (T, T) -> bool): (r: seq<T>)
    ensures |r| == |s| + 1
    ensures multiset(r) == multiset(s) + multiset{x}
  {
    if s == [] || atLeast(x, s[0]) then [x] + s
    else
      assert s == [s[0]] + s[1..];
      [s[0]] + Insert(x, s[1..], atLeast)
  }

  function Sort<T>(s: seq<T>, atLeast: (T, T) -> bool): (r: seq<T>)
    ensures |r| == |s|
    ensures multiset(r) == multiset(s)
  {
    if s == [] then []
    else
      assert s == [s[0]] + s[1..];
      Insert(s[0], Sort(s[1..], atLeast), atLeast)
  }

  /** The first `n` elements (all of them when there are fewer): `limit(n)`. */
  function Take<T>(s: seq<T>, n: nat): (r: seq<T>)
    ensures |r| == if n < |s| then n else |s|
    ensures r == s[..|r|]
  {
    if n < |s| then s[..n] else s
  }

  lemma {:induction false} InsertSorted<T(!new)>(x: T, s: seq<T>, atLeast: (T, T) -> bool)
    requires Total(atLeast) && Transitive(atLeast)
    requires SortedBy(s, atLeast)
    ensures SortedBy(Insert(x, s, atLeast), atLeast)
  {
    if s == [] || atLeast(x, s[0]) {
      ConsSorted(x, s, atLeast);
    } else {
      var rest := Insert(x, s[1..], atLeast);
      InsertSorted(x, s[1..], atLeast);
      InsertStaysBelow(s[0], x, s[1..], atLeast);
      ConsSorted(s[0], rest, atLeast);
    }
  }

  /** Putting in front of a sorted sequence an element that ranks at least as high as its
      head keeps it sorted. */
  lemma ConsSorted<T(!new)>(y: T, t: seq<T>, atLeast: (T, T) -> bool)
    requires Transitive(atLeast)
    requires SortedBy(t, atLeast)
    requires t != [] ==> atLeast(y, t[0])
    ensures SortedBy([y] + t, atLeast)
  {
    var r := [y] + t;
    forall i, j | 0 <= i < j < |r| ensures atLeast(r[i], r[j]) {
      if i == 0 {
        assert r[j] == t[j - 1];
        if j > 1 {
          assert atLeast(t[0], t[j - 1]);
        }
      } else {
        assert r[i] == t[i - 1] && r[j] == t[j - 1];
      }
    }
  }

  /** An element that ranks at least as high as `x` and as every element of `s` ranks at
      least as high as the head of `Insert(x, s)`. */
  lemma InsertStaysBelow<T(!new)>(y: T, x: T, s: seq<T>, atLeast: (T, T) -> bool)
    requires atLeast(y, x)
    requires forall k | 0 <= k < |s| :: atLeast(y, s[k])
    ensures atLeast(y, Insert(x, s, atLeast)[0])
  {
  }

  /** `Sort` puts the elements in ranking order... */
  lemma {:induction false} SortSorted<T(!new)>(s: seq<T>, atLeast: (T, T) -> bool)
    requires Total(atLeast) && Transitive(atLeast)
    ensures SortedBy(Sort(s, atLeast), atLeast)
  {
    if s != [] {
      SortSorted(s[1..], atLeast);
      InsertSorted(s[0], Sort(s[1..], atLeast), atLeast);
    }
  }

  /** ...so every element kept by `limit` ranks at least as high as every element it
      cuts off. */
  lemma TakeKeepsTop<T>(s: seq<T>, n: nat, atLeast: (T, T) -> bool)
    requires SortedBy(s, atLeast)
    ensures forall i, j | 0 <= i < |Take(s, n)| <= j < |s| :: atLeast(s[i], s[j])
  {
  }
}
