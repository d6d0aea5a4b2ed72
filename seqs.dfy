/** Sequence operations that the tracker borrows from JavaScript's Array:
    `filter` and `map`, with the facts about them the rest of the model uses. */
module Seqs {

  /** `a` is obtained from `b` by deleting elements, keeping the order of the rest. */
  ghost predicate IsSubsequence<T>(a: seq<T>, b: seq<T>)
    decreases |b|
  {
    a == [] ||
    (b != [] &&
     ((a[0] == b[0] && IsSubsequence(a[1..], b[1..])) || IsSubsequence(a, b[1..])))
  }

  /** Array.prototype.filter: the elements of `xs` that satisfy `p`, visited left to right. */
  function Filter<T(!new)>(p: T -> bool, xs: seq<T>): (r: seq<T>)
    ensures |r| <= |xs|
    ensures forall x :: x in r <==> x in xs && p(x)
    decreases |xs|
  {
    if xs == [] then []
    else if p(xs[0]) then [xs[0]] + Filter(p, xs[1..])
    else Filter(p, xs[1..])
  }

  /** Array.prototype.map: `f` applied to every element, positions kept. */
  function Map<T, U>(f: T -> U, xs: seq<T>): (r: seq<U>)
    ensures |r| == |xs|
    ensures forall i :: 0 <= i < |xs| ==> r[i] == f(xs[i])
    decreases |xs|
  {
    if xs == [] then [] else [f(xs[0])] + Map(f, xs[1..])
  }

  /** Filtering distributes over concatenation: it never reorders or moves elements across the seam. */
  lemma {:induction false} FilterAppend<T(!new)>(p: T -> bool, a: seq<T>, b: seq<T>)
    ensures Filter(p, a + b) == Filter(p, a) + Filter(p, b)
    decreases |a|
  {
    if a == [] {
      assert a + b == b;
    } else {
      assert (a + b)[0] == a[0];
      assert (a + b)[1..] == a[1..] + b;
      FilterAppend(p, a[1..], b);
    }
  }

  /** Filtering keeps every copy of an element that passes and no copy of one that does
      not: together with membership this fixes the result's multiplicities. */
  lemma {:induction false} FilterCounts<T(!new)>(p: T -> bool, xs: seq<T>)
    ensures forall x :: multiset(Filter(p, xs))[x] == if p(x) then multiset(xs)[x] else 0
    decreases |xs|
  {
    if xs != [] {
      FilterCounts(p, xs[1..]);
      assert xs == [xs[0]] + xs[1..];
    }
  }

  /** The filtered sequence is a subsequence of the input (same relative order). */
  lemma {:induction false} FilterIsSubsequence<T(!new)>(p: T -> bool, xs: seq<T>)
    ensures IsSubsequence(Filter(p, xs), xs)
    decreases |xs|
  {
    if xs != [] {
      FilterIsSubsequence(p, xs[1..]);
      if p(xs[0]) {
        var r := Filter(p, xs);
        assert r[0] == xs[0] && r[1..] == Filter(p, xs[1..]);
      }
    }
  }

  /** Two predicates that agree on the elements give the same filtered sequence. */
  lemma {:induction false} FilterCongruent<T(!new)>(p: T -> bool, q: T -> bool, xs: seq<T>)
    requires forall x :: x in xs ==> p(x) == q(x)
    ensures Filter(p, xs) == Filter(q, xs)
    decreases |xs|
  {
    if xs != [] {
      assert xs[0] in xs;
      forall x | x in xs[1..] ensures p(x) == q(x) { assert x in xs; }
      FilterCongruent(p, q, xs[1..]);
    }
  }

  /** Filtering by `p` and then by `q` is filtering once by their conjunction. */
  lemma {:induction false} FilterConjunction<T(!new)>(p: T -> bool, q: T -> bool, pq: T -> bool, xs: seq<T>)
    requires forall x :: pq(x) == (p(x) && q(x))
    ensures Filter(q, Filter(p, xs)) == Filter(pq, xs)
    decreases |xs|
  {
    if xs != [] {
      FilterConjunction(p, q, pq, xs[1..]);
      if p(xs[0]) {
        assert Filter(p, xs) == [xs[0]] + Filter(p, xs[1..]);
        FilterAppend(q, [xs[0]], Filter(p, xs[1..]));
      }
    }
  }

  /** Filtering leaves the sequence as it is exactly when every element passes. */
  lemma {:induction false} FilterKeepsAll<T(!new)>(p: T -> bool, xs: seq<T>)
    ensures Filter(p, xs) == xs <==> forall x :: x in xs ==> p(x)
    decreases |xs|
  {
    if forall x :: x in xs ==> p(x) {
      if xs != [] {
        assert xs[0] in xs;
        forall x | x in xs[1..] ensures p(x) { assert x in xs; }
        FilterKeepsAll(p, xs[1..]);
        assert xs == [xs[0]] + xs[1..];
      }
    }
  }

  /** A filter applied twice removes nothing more the second time. */
  lemma FilterIdempotent<T(!new)>(p: T -> bool, xs: seq<T>)
    ensures Filter(p, Filter(p, xs)) == Filter(p, xs)
  {
  }

  /** When no element passes, nothing is kept. */
  lemma FilterKeepsNone<T(!new)>(p: T -> bool, xs: seq<T>)
    requires forall x :: x in xs ==> !p(x)
    ensures Filter(p, xs) == []
  {
  }

  /** A map that fixes every element returns the sequence unchanged. */
  lemma MapFixed<T>(f: T -> T, xs: seq<T>)
    requires forall x :: x in xs ==> f(x) == x
    ensures Map(f, xs) == xs
  {
  }

  /** Filtering after a map is filtering the original, when the map leaves every element
      the filter keeps as it is and never changes whether an element passes. */
  lemma {:induction false} FilterAfterMap<T(!new)>(p: T -> bool, f: T -> T, xs: seq<T>)
    requires forall x :: x in xs ==> p(f(x)) == p(x)
    requires forall x :: x in xs && p(x) ==> f(x) == x
    ensures Filter(p, Map(f, xs)) == Filter(p, xs)
    decreases |xs|
  {
    if xs != [] {
      assert xs[0] in xs;
      forall x | x in xs[1..] ensures p(f(x)) == p(x) && (p(x) ==> f(x) == x) { assert x in xs; }
      FilterAfterMap(p, f, xs[1..]);
      assert Map(f, xs) == [f(xs[0])] + Map(f, xs[1..]);
    }
  }
}
