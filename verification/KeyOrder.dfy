/** Strings in lexicographic order, and a set of keys listed in that order. The
    elements of a string are compared by rank. */
module KeyOrder {
  ghost predicate Ranks<T(!new)>(rank: T -> nat) {
    forall x, y :: rank(x) == rank(y) ==> x == y
  }

  predicate Less<T>(rank: T -> nat, a: seq<T>, b: seq<T>) {
    if b == [] then false
    else if a == [] then true
    else if rank(a[0]) != rank(b[0]) then rank(a[0]) < rank(b[0])
    else Less(rank, a[1..], b[1..])
  }

  lemma {:induction false} LessTotal<T(!new)>(rank: T -> nat, a: seq<T>, b: seq<T>)
    requires Ranks(rank)
    ensures Less(rank, a, b) || a == b || Less(rank, b, a)
    ensures !(Less(rank, a, b) && Less(rank, b, a)) && !Less(rank, a, a)
  {
    if a != [] && b != [] && rank(a[0]) == rank(b[0]) {
      LessTotal(rank, a[1..], b[1..]);
      assert a == [a[0]] + a[1..] && b == [b[0]] + b[1..];
    }
    if a != [] {
      LessTotal(rank, a[1..], a[1..]);
    }
  }

  lemma {:induction false} LessTransitive<T(!new)>(rank: T -> nat, a: seq<T>, b: seq<T>, c: seq<T>)
    requires Less(rank, a, b) && Less(rank, b, c)
    ensures Less(rank, a, c)
  {
    if a != [] && rank(a[0]) == rank(b[0]) == rank(c[0]) {
      LessTransitive(rank, a[1..], b[1..], c[1..]);
    }
  }

  ghost predicate IsLast<T(!new)>(rank: T -> nat, keys: set<seq<T>>, m: seq<T>) {
    m in keys && forall x | x in keys :: x == m || Less(rank, x, m)
  }

  lemma {:induction false} HasLast<T(!new)>(rank: T -> nat, keys: set<seq<T>>)
    requires Ranks(rank) && keys != {}
    ensures exists m :: IsLast(rank, keys, m)
    decreases |keys|
  {
    hide Less, Ranks;
    var k :| k in keys;
    if keys == {k} {
      assert IsLast(rank, keys, k);
    } else {
      HasLast(rank, keys - {k});
      var m :| IsLast(rank, keys - {k}, m);
      LessTotal(rank, k, m);
      if Less(rank, m, k) {
        forall x | x in keys ensures x == k || Less(rank, x, k) {
          if x != k && x != m { LessTransitive(rank, x, m, k); }
        }
        assert IsLast(rank, keys, k);
      } else {
        assert IsLast(rank, keys, m);
      }
    }
  }

  /** The keys in increasing order. */
  ghost function SortedKeys<T(!new)>(rank: T -> nat, keys: set<seq<T>>): seq<seq<T>>
    requires Ranks(rank)
    decreases |keys|
  {
    if keys == {} then []
    else
      HasLast(rank, keys);
      var m :| IsLast(rank, keys, m);
      SortedKeys(rank, keys - {m}) + [m]
  }

  lemma {:induction false} SortedKeysAre<T(!new)>(rank: T -> nat, keys: set<seq<T>>)
    requires Ranks(rank)
    ensures forall x :: x in SortedKeys(rank, keys) <==> x in keys
    ensures forall i, j | 0 <= i < j < |SortedKeys(rank, keys)| ::
              Less(rank, SortedKeys(rank, keys)[i], SortedKeys(rank, keys)[j])
    ensures |SortedKeys(rank, keys)| == |keys|
    decreases |keys|
  {
    hide Less, Ranks;
    if keys != {} {
      HasLast(rank, keys);
      var sorted := SortedKeys(rank, keys);
      var m := sorted[|sorted| - 1];
      assert IsLast(rank, keys, m) && sorted == SortedKeys(rank, keys - {m}) + [m];
      SortedKeysAre(rank, keys - {m});
      forall i, j | 0 <= i < j < |sorted| ensures Less(rank, sorted[i], sorted[j]) {
        if j == |sorted| - 1 {
          assert sorted[i] in SortedKeys(rank, keys - {m});
        }
      }
    }
  }

  lemma LastUnique<T(!new)>(rank: T -> nat, keys: set<seq<T>>, a: seq<T>, b: seq<T>)
    requires Ranks(rank) && IsLast(rank, keys, a) && IsLast(rank, keys, b)
    ensures a == b
  {
    LessTotal(rank, a, b);
  }

  /** Lists the keys in increasing order. */
  method Keys<T(!new, ==)>(rank: T -> nat, keys: set<seq<T>>) returns (ks: seq<seq<T>>)
    requires Ranks(rank)
    ensures ks == SortedKeys(rank, keys)
  {
    hide Less, Ranks;
    ks := [];
    var left := keys;
    while left != {}
      invariant SortedKeys(rank, keys) == SortedKeys(rank, left) + ks
    {
      HasLast(rank, left);
      ghost var g :| IsLast(rank, left, g);
      var m :| m in left && forall x | x in left :: x == m || Less(rank, x, m);
      assert IsLast(rank, left, m);
      forall m' | IsLast(rank, left, m') ensures m' == m { LastUnique(rank, left, m, m'); }
      ks := [m] + ks;
      left := left - {m};
    }
  }
}
