/** Permutations of axes, as sequences of distinct positions. */
module Permutations {

  ghost predicate Distinct(p: seq<int>) {
    forall i, j | 0 <= i < j < |p| :: p[i] != p[j]
  }

  /** p lists each of 0, ..., n-1 exactly once. */
  ghost predicate IsPermutation(p: seq<int>, n: nat) {
    |p| == n && Distinct(p) && forall i | 0 <= i < n :: 0 <= p[i] < n
  }

  /** The sequence whose i-th element is xs[p[i]]. */
  function Reindex<T>(xs: seq<T>, p: seq<int>): (r: seq<T>)
    requires forall i | 0 <= i < |p| :: 0 <= p[i] < |xs|
    ensures |r| == |p| && forall i | 0 <= i < |p| :: r[i] == xs[p[i]]
  {
    seq(|p|, i requires 0 <= i < |p| => xs[p[i]])
  }

  function Remove<T>(p: seq<T>, j: nat): seq<T>
    requires j < |p|
  {
    p[..j] + p[j + 1..]
  }

  /** Pigeonhole: distinct numbers below m are at most m many. */
  lemma {:induction false} DistinctBound(p: seq<int>, m: nat)
    requires Distinct(p) && forall i | 0 <= i < |p| :: 0 <= p[i] < m
    ensures |p| <= m
  {
    if p != [] {
      assert p[0] < m;
      if m - 1 in p {
        var j :| 0 <= j < |p| && p[j] == m - 1;
        DistinctBound(Remove(p, j), m - 1);
      } else {
        DistinctBound(p, m - 1);
      }
    }
  }

  /** Pigeonhole: a permutation of 0, ..., n-1 leaves out none of them. */
  lemma Onto(p: seq<int>, n: nat, a: nat)
    requires IsPermutation(p, n) && a < n
    ensures a in p
  {
    if a !in p {
      DistinctBound(p + [a], n);
    }
  }

  /** Where a stands in p. */
  function Find<T(==)>(p: seq<T>, a: T): (j: nat)
    requires a in p
    ensures j < |p| && p[j] == a
  {
    if p[0] == a then 0 else 1 + Find(p[1..], a)
  }

  /** The permutation that undoes p. */
  function Inverse(p: seq<int>): (q: seq<int>)
    requires IsPermutation(p, |p|)
    ensures IsPermutation(q, |p|)
    ensures forall a | 0 <= a < |p| :: p[q[a]] == a
    ensures forall k | 0 <= k < |p| :: q[p[k]] == k
  {
    assert forall a | 0 <= a < |p| :: a in p by {
      forall a | 0 <= a < |p| ensures a in p { Onto(p, |p|, a); }
    }
    seq(|p|, a requires 0 <= a < |p| => Find(p, a))
  }

  /** Where the last element goes: a reordering of xs is one of xs without its
      last element, with that element put in at j. */
  lemma SplitReindex<T>(xs: seq<T>, p: seq<int>) returns (j: nat, p': seq<int>)
    requires xs != [] && IsPermutation(p, |xs|)
    ensures j < |p| && IsPermutation(p', |xs| - 1)
    ensures Reindex(xs, p) == Reindex(xs, p)[..j] + [xs[|xs| - 1]] + Reindex(xs, p)[j + 1..]
    ensures Reindex(xs[..|xs| - 1], p') == Reindex(xs, p)[..j] + Reindex(xs, p)[j + 1..]
  {
    Onto(p, |xs|, |xs| - 1);
    j := Find(p, |xs| - 1);
    p' := Remove(p, j);
    RemoveLast(p, j);
    var r, r' := Reindex(xs, p), Reindex(xs[..|xs| - 1], p');
    assert r == r[..j] + [r[j]] + r[j + 1..];
    forall i | 0 <= i < |p'| ensures r'[i] == (r[..j] + r[j + 1..])[i] {
      assert p'[i] == if i < j then p[i] else p[i + 1];
    }
  }

  /** Dropping the greatest entry leaves a permutation of the others. */
  lemma RemoveLast(p: seq<int>, j: nat)
    requires IsPermutation(p, |p|) && j < |p| && p[j] == |p| - 1
    ensures IsPermutation(Remove(p, j), |p| - 1)
  {
    var r := Remove(p, j);
    forall i | 0 <= i < |r| ensures 0 <= r[i] < |p| - 1 {
      assert r[i] == if i < j then p[i] else p[i + 1];
    }
  }

  function Sum(xs: seq<int>): int {
    if xs == [] then 0 else xs[0] + Sum(xs[1..])
  }

  lemma {:induction false} SumConcat(a: seq<int>, b: seq<int>)
    ensures Sum(a + b) == Sum(a) + Sum(b)
  {
    if a == [] {
      assert a + b == b;
    } else {
      SumConcat(a[1..], b);
      assert (a + b)[1..] == a[1..] + b;
    }
  }

  /** A sum does not depend on the order of its terms. */
  lemma {:induction false} ReindexSum(xs: seq<int>, p: seq<int>)
    requires IsPermutation(p, |xs|)
    ensures Sum(Reindex(xs, p)) == Sum(xs)
  {
    if xs == [] {
      assert Reindex(xs, p) == xs;
    } else {
      var last, r := [xs[|xs| - 1]], Reindex(xs, p);
      var j, p' := SplitReindex(xs, p);
      ReindexSum(xs[..|xs| - 1], p');
      assert xs == xs[..|xs| - 1] + last;
      SumConcat(xs[..|xs| - 1], last);
      SumConcat(r[..j] + last, r[j + 1..]);
      SumConcat(r[..j], last);
      SumConcat(r[..j], r[j + 1..]);
    }
  }
}
