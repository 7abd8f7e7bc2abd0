/**
 * `Array.prototype.filter` and `reduce((acc, x) => acc + f(x), 0)`, the two list
 * operations every statistics panel is built from. Both are defined from the last
 * element backwards so that a prefix `s[..i]` is exactly what a left-to-right pass
 * has seen after `i` steps.
 */
module Aggregate {

  /** `s.reduce((acc, x) => acc + f(x), 0)`. */
  function Sum<T>(s: seq<T>, f: T -> real): real {
    if s == [] then 0.0 else Sum(s[..|s| - 1], f) + f(s[|s| - 1])
  }

  /** `s.filter(p)`: the elements satisfying `p`, in their original order. */
  function Filter<T>(s: seq<T>, p: T -> bool): (r: seq<T>)
    ensures |r| <= |s|
  {
    if s == [] then [] else Filter(s[..|s| - 1], p) + (if p(s[|s| - 1]) then [s[|s| - 1]] else [])
  }

  /** An element is kept by `filter` exactly when it is in the list and satisfies `p`. */
  lemma {:induction false} FilterMembers<T>(s: seq<T>, p: T -> bool, x: T)
    ensures x in Filter(s, p) <==> x in s && p(x)
  {
    if s != [] {
      FilterMembers(s[..|s| - 1], p, x);
      assert s == s[..|s| - 1] + [s[|s| - 1]];
    }
  }

  /** `s.filter(p).length`. */
  function Count<T>(s: seq<T>, p: T -> bool): nat {
    |Filter(s, p)|
  }

  /** Summing a concatenation sums the parts. */
  lemma {:induction false} SumAppend<T>(a: seq<T>, b: seq<T>, f: T -> real)
    ensures Sum(a + b, f) == Sum(a, f) + Sum(b, f)
    decreases |b|
  {
    if b != [] {
      assert (a + b)[..|a + b| - 1] == a + b[..|b| - 1];
      SumAppend(a, b[..|b| - 1], f);
    } else {
      assert a + b == a;
    }
  }

  /** Filtering a concatenation filters the parts. */
  lemma {:induction false} FilterAppend<T>(a: seq<T>, b: seq<T>, p: T -> bool)
    ensures Filter(a + b, p) == Filter(a, p) + Filter(b, p)
    decreases |b|
  {
    if b != [] {
      assert (a + b)[..|a + b| - 1] == a + b[..|b| - 1];
      FilterAppend(a, b[..|b| - 1], p);
    } else {
      assert a + b == a;
    }
  }

  /**
   * Splitting a list by a predicate splits its sum: what `p` keeps plus what it
   * drops is everything.
   */
  lemma {:induction false} SumPartition<T>(s: seq<T>, f: T -> real, p: T -> bool, q: T -> bool)
    requires forall x :: q(x) == !p(x)
    ensures Sum(Filter(s, p), f) + Sum(Filter(s, q), f) == Sum(s, f)
  {
    if s != [] {
      var init, last := s[..|s| - 1], s[|s| - 1];
      SumPartition(init, f, p, q);
      assert [last][..0] == [];
      if p(last) {
        assert Filter(s, q) == Filter(init, q);
        SumAppend(Filter(init, p), [last], f);
      } else {
        assert Filter(s, p) == Filter(init, p);
        SumAppend(Filter(init, q), [last], f);
      }
    }
  }

  /** Replacing one element changes the sum by the difference of the two terms. */
  lemma {:induction false} SumUpdate<T>(s: seq<T>, k: nat, v: T, f: T -> real)
    requires k < |s|
    ensures Sum(s[k := v], f) == Sum(s, f) - f(s[k]) + f(v)
  {
    var n := |s| - 1;
    if k == n {
      assert s[k := v][..n] == s[..n];
    } else {
      SumUpdate(s[..n], k, v, f);
      assert s[k := v][..n] == s[..n][k := v];
    }
  }

  /** Summing what `p` keeps is summing every term with the dropped ones counted as zero. */
  lemma {:induction false} SumFilterMasked<T>(s: seq<T>, p: T -> bool, f: T -> real, g: T -> real)
    requires forall x :: g(x) == if p(x) then f(x) else 0.0
    ensures Sum(Filter(s, p), f) == Sum(s, g)
  {
    if s != [] {
      var init, last := s[..|s| - 1], s[|s| - 1];
      SumFilterMasked(init, p, f, g);
      SumAppend(Filter(init, p), if p(last) then [last] else [], f);
      assert [last][..0] == [];
    }
  }

  /** Replacing one element changes a filtered sum by what the filter sees of the old and the new element. */
  lemma FilterSumUpdate<T>(s: seq<T>, k: nat, v: T, p: T -> bool, f: T -> real)
    requires k < |s|
    ensures Sum(Filter(s[k := v], p), f)
            == Sum(Filter(s, p), f) - (if p(s[k]) then f(s[k]) else 0.0) + (if p(v) then f(v) else 0.0)
  {
    var g := (x: T) => if p(x) then f(x) else 0.0;
    SumFilterMasked(s, p, f, g);
    SumFilterMasked(s[k := v], p, f, g);
    SumUpdate(s, k, v, g);
  }

  /** What `p` keeps and what it drops together number the whole list. */
  lemma {:induction false} CountPartition<T>(s: seq<T>, p: T -> bool, q: T -> bool)
    requires forall x :: q(x) == !p(x)
    ensures Count(s, p) + Count(s, q) == |s|
  {
    if s != [] {
      CountPartition(s[..|s| - 1], p, q);
    }
  }

  /** Filters that agree on every element give the same result. */
  lemma {:induction false} FilterSame<T>(s: seq<T>, p: T -> bool, q: T -> bool)
    requires forall x :: x in s ==> p(x) == q(x)
    ensures Filter(s, p) == Filter(s, q)
  {
    if s != [] {
      assert forall x :: x in s[..|s| - 1] ==> x in s;
      FilterSame(s[..|s| - 1], p, q);
    }
  }

  /** A filter that keeps nothing returns nothing. */
  lemma {:induction false} FilterNone<T>(s: seq<T>, p: T -> bool)
    requires forall x :: !p(x)
    ensures Filter(s, p) == []
  {
    if s != [] {
      FilterNone(s[..|s| - 1], p);
    }
  }

  /** A filter that keeps every element returns the list unchanged. */
  lemma {:induction false} FilterAll<T>(s: seq<T>, p: T -> bool)
    requires forall x :: x in s ==> p(x)
    ensures Filter(s, p) == s
  {
    if s != [] {
      FilterAll(s[..|s| - 1], p);
    }
  }

  /** A sum of non-negative terms is non-negative. */
  lemma {:induction false} SumNonNegative<T>(s: seq<T>, f: T -> real)
    requires forall x :: x in s ==> f(x) >= 0.0
    ensures Sum(s, f) >= 0.0
  {
    if s != [] {
      SumNonNegative(s[..|s| - 1], f);
    }
  }

  /** Filtering by `p` keeps the sum of non-negative terms within the whole sum. */
  lemma SumFilterBounded<T>(s: seq<T>, f: T -> real, p: T -> bool)
    requires forall x :: x in s ==> f(x) >= 0.0
    ensures Sum(Filter(s, p), f) <= Sum(s, f)
  {
    var q := (x: T) => !p(x);
    SumPartition(s, f, p, q);
    forall x | x in Filter(s, q) ensures f(x) >= 0.0 {
      FilterMembers(s, q, x);
    }
    SumNonNegative(Filter(s, q), f);
  }

  /** Filtering by two predicates in turn is filtering by their conjunction. */
  lemma {:induction false} FilterFilter<T>(s: seq<T>, p: T -> bool, q: T -> bool, pq: T -> bool)
    requires forall x :: pq(x) == (p(x) && q(x))
    ensures Filter(Filter(s, p), q) == Filter(s, pq)
  {
    if s != [] {
      var init, last := s[..|s| - 1], s[|s| - 1];
      FilterFilter(init, p, q, pq);
      FilterAppend(Filter(init, p), if p(last) then [last] else [], q);
    }
  }

  /** `idx` lists, in increasing order, the positions in `s` from which `r` was taken. */
  ghost predicate Embeds<T>(idx: seq<nat>, r: seq<T>, s: seq<T>) {
    && |idx| == |r|
    && (forall k :: 0 <= k < |idx| ==> idx[k] < |s| && s[idx[k]] == r[k])
    && (forall k, l :: 0 <= k < l < |idx| ==> idx[k] < idx[l])
  }

  /** `r` is an order-preserving selection from `s`. */
  ghost predicate IsSubsequence<T>(r: seq<T>, s: seq<T>) {
    exists idx: seq<nat> :: Embeds(idx, r, s)
  }

  /** The positions `filter` keeps. */
  ghost function KeptPositions<T>(s: seq<T>, p: T -> bool): seq<nat> {
    if s == [] then [] else KeptPositions(s[..|s| - 1], p) + (if p(s[|s| - 1]) then [|s| - 1] else [])
  }

  lemma {:induction false} KeptPositionsEmbed<T>(s: seq<T>, p: T -> bool)
    ensures Embeds(KeptPositions(s, p), Filter(s, p), s)
  {
    if s != [] {
      var init, last := s[..|s| - 1], s[|s| - 1];
      KeptPositionsEmbed(init, p);
      var idx, r := KeptPositions(init, p), Filter(init, p);
      assert forall k :: 0 <= k < |idx| ==> s[idx[k]] == init[idx[k]];
      assert forall k :: 0 <= k < |idx| ==> idx[k] < |init|;
    }
  }

  /** `filter` is order-preserving: its result is a subsequence of its input. */
  lemma FilterIsSubsequence<T>(s: seq<T>, p: T -> bool)
    ensures IsSubsequence(Filter(s, p), s)
  {
    KeptPositionsEmbed(s, p);
  }
}
