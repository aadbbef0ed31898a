/** Key order, tensor order and the data section's layout in
    compatmigrate/writer.go. */
module GgufLayout {
  import opened Bytes
  import KeyOrder
  import Shapes

  // ---- Byte strings in order ----------------------------------------------

  function ByteRank(b: byte): nat { b }

  predicate Less(a: seq<byte>, b: seq<byte>) { KeyOrder.Less(ByteRank, a, b) }

  lemma LessTotal(a: seq<byte>, b: seq<byte>)
    ensures Less(a, b) || a == b || Less(b, a)
    ensures !(Less(a, b) && Less(b, a)) && !Less(a, a)
  {
    KeyOrder.LessTotal(ByteRank, a, b);
  }

  lemma LessTransitive(a: seq<byte>, b: seq<byte>, c: seq<byte>)
    requires Less(a, b) && Less(b, c)
    ensures Less(a, c)
  {
    KeyOrder.LessTransitive(ByteRank, a, b, c);
  }

  /** The metadata keys in increasing order. */
  ghost function SortedKeys(keys: set<seq<byte>>): seq<seq<byte>> { KeyOrder.SortedKeys(ByteRank, keys) }

  lemma SortedKeysAre(keys: set<seq<byte>>)
    ensures forall x :: x in SortedKeys(keys) <==> x in keys
    ensures forall i, j | 0 <= i < j < |SortedKeys(keys)| :: Less(SortedKeys(keys)[i], SortedKeys(keys)[j])
    ensures |SortedKeys(keys)| == |keys|
  {
    KeyOrder.SortedKeysAre(ByteRank, keys);
  }

  method Keys(keys: set<seq<byte>>) returns (ks: seq<seq<byte>>)
    ensures ks == SortedKeys(keys)
  {
    ks := KeyOrder.Keys(ByteRank, keys);
  }

  // ---- Tensor order -------------------------------------------------------

  /** One tensor to write. block is the layer index that its name starts with (the
      greatest integer for names without one); payload is what WriterTo writes. */
  datatype OutTensor = OutTensor(name: seq<byte>, kind: nat, shape: seq<nat>, block: int, payload: seq<byte>)

  /** a may stand before b. */
  predicate Before(a: OutTensor, b: OutTensor) {
    a.block < b.block || (a.block == b.block && (a.name == b.name || Less(a.name, b.name)))
  }

  lemma BeforeTotal(a: OutTensor, b: OutTensor)
    ensures Before(a, b) || Before(b, a)
    ensures Before(a, b) && Before(b, a) ==> a.block == b.block && a.name == b.name
  {
    LessTotal(a.name, b.name);
  }

  lemma BeforeTransitive(a: OutTensor, b: OutTensor, c: OutTensor)
    requires Before(a, b) && Before(b, c)
    ensures Before(a, c)
  {
    if Less(a.name, b.name) && Less(b.name, c.name) { LessTransitive(a.name, b.name, c.name); }
  }

  /** Puts x behind everything that may stand before it. */
  function Insert(ts: seq<OutTensor>, x: OutTensor): seq<OutTensor> {
    if ts == [] || Before(ts[|ts| - 1], x) then ts + [x]
    else Insert(ts[..|ts| - 1], x) + [ts[|ts| - 1]]
  }

  /** The stable sort by layer and name. */
  function StableSort(ts: seq<OutTensor>): seq<OutTensor> {
    if ts == [] then [] else Insert(StableSort(ts[..|ts| - 1]), ts[|ts| - 1])
  }

  ghost predicate Sorted(ts: seq<OutTensor>) {
    forall i, j | 0 <= i < j < |ts| :: Before(ts[i], ts[j])
  }

  predicate SameKey(a: OutTensor, block: int, name: seq<byte>) {
    a.block == block && a.name == name
  }

  /** The tensors with this sort key, in order. */
  function WithKey(ts: seq<OutTensor>, block: int, name: seq<byte>): seq<OutTensor> {
    if ts == [] then []
    else (if SameKey(ts[0], block, name) then [ts[0]] else []) + WithKey(ts[1..], block, name)
  }

  lemma {:induction false} WithKeyConcat(a: seq<OutTensor>, b: seq<OutTensor>, block: int, name: seq<byte>)
    ensures WithKey(a + b, block, name) == WithKey(a, block, name) + WithKey(b, block, name)
  {
    if a == [] {
      assert a + b == b;
    } else {
      WithKeyConcat(a[1..], b, block, name);
      WithKeyFirst(a, block, name);
      WithKeyFirst(a + b, block, name);
      assert (a + b)[1..] == a[1..] + b && (a + b)[0] == a[0];
      hide WithKey;
      Assoc(if SameKey(a[0], block, name) then [a[0]] else [], WithKey(a[1..], block, name), WithKey(b, block, name));
    }
  }

  lemma WithKeyFirst(ts: seq<OutTensor>, block: int, name: seq<byte>)
    requires ts != []
    ensures WithKey(ts, block, name) == (if SameKey(ts[0], block, name) then [ts[0]] else []) +
              WithKey(ts[1..], block, name)
  {}

  lemma Assoc(a: seq<OutTensor>, b: seq<OutTensor>, c: seq<OutTensor>)
    ensures (a + b) + c == a + (b + c)
  {}

  lemma {:induction false} InsertKeeps(ts: seq<OutTensor>, x: OutTensor)
    requires Sorted(ts)
    ensures Sorted(Insert(ts, x)) && multiset(Insert(ts, x)) == multiset(ts) + multiset{x}
    ensures forall y :: y in Insert(ts, x) <==> y in ts || y == x
    decreases |ts|
  {
    if ts == [] {
    } else if Before(ts[|ts| - 1], x) {
      forall i | 0 <= i < |ts| ensures Before(ts[i], x) {
        if i < |ts| - 1 { BeforeTransitive(ts[i], ts[|ts| - 1], x); }
      }
    } else {
      var front, last := ts[..|ts| - 1], ts[|ts| - 1];
      InsertKeeps(front, x);
      BeforeTotal(last, x);
      assert ts == front + [last];
      forall y | y in Insert(front, x) ensures Before(y, last) {
        if y in front { assert Before(y, last); }
      }
    }
  }

  /** Tensors of one key are never out of order. */
  lemma NotBothKey(a: OutTensor, b: OutTensor, block: int, name: seq<byte>)
    requires !Before(a, b)
    ensures WithKey([a], block, name) == [] || WithKey([b], block, name) == []
  {}

  lemma {:induction false} InsertStable(ts: seq<OutTensor>, x: OutTensor, block: int, name: seq<byte>)
    ensures WithKey(Insert(ts, x), block, name) == WithKey(ts + [x], block, name)
    decreases |ts|
  {
    hide WithKey, Before;
    if ts != [] && !Before(ts[|ts| - 1], x) {
      var front, last := ts[..|ts| - 1], ts[|ts| - 1];
      NotBothKey(last, x, block, name);
      InsertStable(front, x, block, name);
      WithKeyConcat(Insert(front, x), [last], block, name);
      WithKeyConcat(front, [x], block, name);
      WithKeyConcat(ts, [x], block, name);
      WithKeyConcat(front, [last], block, name);
      assert ts == front + [last];
    }
  }

  /** The written order is a permutation, sorted by layer and name, in which
      tensors of one key keep their order. */
  lemma {:induction false} StableSortSorts(ts: seq<OutTensor>)
    ensures Sorted(StableSort(ts)) && multiset(StableSort(ts)) == multiset(ts)
    decreases |ts|
  {
    if ts != [] {
      hide Sorted, Insert;
      StableSortSorts(ts[..|ts| - 1]);
      InsertKeeps(StableSort(ts[..|ts| - 1]), ts[|ts| - 1]);
      assert ts == ts[..|ts| - 1] + [ts[|ts| - 1]];
    }
  }

  lemma {:induction false} StableSortStable(ts: seq<OutTensor>, block: int, name: seq<byte>)
    ensures WithKey(StableSort(ts), block, name) == WithKey(ts, block, name)
    decreases |ts|
  {
    if ts != [] {
      var front, last := ts[..|ts| - 1], ts[|ts| - 1];
      StableSortStable(front, block, name);
      InsertStable(StableSort(front), last, block, name);
      WithKeyConcat(StableSort(front), [last], block, name);
      WithKeyConcat(front, [last], block, name);
      assert ts == front + [last];
    }
  }

  lemma {:induction false} WithKeyFinds(ts: seq<OutTensor>, x: OutTensor)
    requires x in ts
    ensures WithKey(ts, x.block, x.name) != []
  {
    if ts[0] != x { WithKeyFinds(ts[1..], x); }
  }

  lemma {:induction false} WithKeyIn(ts: seq<OutTensor>, block: int, name: seq<byte>)
    ensures forall y | y in WithKey(ts, block, name) :: y in ts && SameKey(y, block, name)
  {
    if ts != [] { WithKeyIn(ts[1..], block, name); }
  }

  /** Sorted and stable leave no choice, so any stable sort writes this order. */
  lemma {:induction false} StableSortUnique(a: seq<OutTensor>, b: seq<OutTensor>)
    requires Sorted(a) && Sorted(b)
    requires forall block, name :: WithKey(a, block, name) == WithKey(b, block, name)
    ensures a == b
    decreases |a|
  {
    if a == [] {
      if b != [] { WithKeyFinds(b, b[0]); }
    } else {
      SameHead(a, b);
      forall block, name ensures WithKey(a[1..], block, name) == WithKey(b[1..], block, name) {
        var n := if SameKey(a[0], block, name) then 1 else 0;
        assert WithKey(a, block, name)[n..] == WithKey(a[1..], block, name);
        assert WithKey(b, block, name)[n..] == WithKey(b[1..], block, name);
      }
      StableSortUnique(a[1..], b[1..]);
      assert a == [a[0]] + a[1..] && b == [b[0]] + b[1..];
    }
  }

  lemma FirstBefore(ts: seq<OutTensor>, y: OutTensor)
    requires Sorted(ts) && y in ts
    ensures Before(ts[0], y)
  {
    var k :| 0 <= k < |ts| && ts[k] == y;
  }

  lemma SameHead(a: seq<OutTensor>, b: seq<OutTensor>)
    requires Sorted(a) && Sorted(b) && a != []
    requires forall block, name :: WithKey(a, block, name) == WithKey(b, block, name)
    ensures b != [] && a[0] == b[0]
  {
    WithKeyFinds(a, a[0]);
    WithKeyIn(b, a[0].block, a[0].name);
    var y := WithKey(b, a[0].block, a[0].name)[0];
    assert y in b && SameKey(y, a[0].block, a[0].name);
    WithKeyFinds(b, b[0]);
    WithKeyIn(a, b[0].block, b[0].name);
    var z := WithKey(a, b[0].block, b[0].name)[0];
    assert z in a && SameKey(z, b[0].block, b[0].name);
    FirstBefore(a, z);
    FirstBefore(b, y);
    BeforeTotal(a[0], b[0]);
    assert SameKey(b[0], a[0].block, a[0].name);
    assert WithKey(a, a[0].block, a[0].name)[0] == a[0];
    assert WithKey(b, a[0].block, a[0].name)[0] == b[0];
  }

  // ---- Offsets ------------------------------------------------------------

  /** The fewest bytes that bring an offset to a multiple of align. */
  function Padding(offset: nat, align: nat): (p: nat)
    requires align > 0
    ensures p < align && (offset + p) % align == 0
  {
    PaddingAligns(offset, align);
    (align - offset % align) % align
  }

  lemma PaddingAligns(offset: nat, align: nat)
    requires align > 0
    ensures (offset + (align - offset % align) % align) % align == 0
  {
    var k, r := offset / align, offset % align;
    if r == 0 {
      ModIs(align, 1, 0);
      ModIs(align, k, 0);
    } else {
      SmallMod(align - r, align);
      assert offset + (align - r) == (k + 1) * align;
      ModIs(align, k + 1, 0);
    }
  }

  lemma ModIs(d: nat, k: nat, r: nat)
    requires r < d
    ensures (k * d + r) % d == r
  {
    Shapes.RowUnique(k, r, (k * d + r) / d, (k * d + r) % d, d);
  }

  lemma SmallMod(r: nat, d: nat)
    requires r < d
    ensures r % d == r
  {
    ModIs(d, 0, r);
  }

  /** Where tensor i of these sizes starts. */
  function OffsetOf(sizes: seq<nat>, align: nat, i: nat): nat
    requires align > 0 && i <= |sizes|
  {
    if i == 0 then 0
    else
      var end := OffsetOf(sizes, align, i - 1) + sizes[i - 1];
      end + Padding(end, align)
  }

  /** Every offset is aligned, and each tensor is followed by less than one
      alignment of padding. */
  lemma OffsetsAligned(sizes: seq<nat>, align: nat, i: nat)
    requires align > 0 && i < |sizes|
    ensures OffsetOf(sizes, align, i) % align == 0
    ensures OffsetOf(sizes, align, i) + sizes[i] <= OffsetOf(sizes, align, i + 1)
          < OffsetOf(sizes, align, i) + sizes[i] + align
  {
    SmallMod(0, align);
  }

  /** The tensors' ranges increase and never overlap. */
  lemma {:induction false} RangesDisjoint(sizes: seq<nat>, align: nat, i: nat, j: nat)
    requires align > 0 && i < j < |sizes|
    ensures OffsetOf(sizes, align, i) + sizes[i] <= OffsetOf(sizes, align, j)
    decreases j
  {
    OffsetsAligned(sizes, align, j - 1);
    if i < j - 1 {
      RangesDisjoint(sizes, align, i, j - 1);
    }
  }
}
