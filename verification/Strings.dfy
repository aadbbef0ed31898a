/** Searching in strings of characters or bytes. */
module Strings {
  import opened Results

  /** sub occurs in s at i. */
  predicate OccursAt<T(==)>(s: seq<T>, sub: seq<T>, i: nat) {
    i <= |s| && sub <= s[i..]
  }

  /** Where sub first occurs, from at on. */
  function Index<T(==)>(s: seq<T>, sub: seq<T>, at: nat): (i: Option<nat>)
    requires at <= |s|
    ensures i.Some? ==> at <= i.value && OccursAt(s, sub, i.value) && forall j | at <= j < i.value ::
              !OccursAt(s, sub, j)
    ensures i.None? ==> forall j | at <= j :: !OccursAt(s, sub, j)
    decreases |s| - at
  {
    if sub <= s[at..] then Some(at)
    else if at == |s| then None
    else Index(s, sub, at + 1)
  }

  /** Where sub last occurs, at most at upto. */
  function LastIndex<T(==)>(s: seq<T>, sub: seq<T>, upto: nat): (i: Option<nat>)
    requires upto <= |s|
    ensures i.Some? ==> i.value <= upto && OccursAt(s, sub, i.value) && forall j | i.value < j <= upto ::
              !OccursAt(s, sub, j)
    ensures i.None? ==> forall j | 0 <= j <= upto :: !OccursAt(s, sub, j)
  {
    if sub <= s[upto..] then Some(upto)
    else if upto == 0 then None
    else LastIndex(s, sub, upto - 1)
  }
}
