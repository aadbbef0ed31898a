/** The Pixtral query/key repack of compatmigrate/mistral_pixtral.go: three
    loops that copy whole rows are one axis permutation. */
module PixtralRepack {
  import opened Shapes
  import opened Permutations
  import opened TensorLayout
  import opened Results

  datatype RepackError = NoHeads | NotMatrix | NotDivisible | WrongLength

  /** The source as [heads, pair, inner, rows]. */
  ghost function Source<T>(data: seq<T>, heads: nat, inner: nat, rows: nat): (t: Tensor<T>)
    requires |data| == Times(Times(Times(heads, 2), inner), rows)
    ensures t.Valid() && t == Tensor(data, [heads, 2, inner, rows])
  {
    Horner4(heads, 2, inner, rows, 0, 0, 0, 0);
    Tensor(data, [heads, 2, inner, rows])
  }

  const SWAP := [0, 2, 1, 3]

  lemma SwapScatter(idx: seq<nat>)
    requires |idx| == 4
    ensures IsPermutation(SWAP, 4) && Scatter(SWAP, idx) == [idx[0], idx[2], idx[1], idx[3]]
  {
    var s := Scatter(SWAP, idx);
    assert s[SWAP[0]] == idx[0] && s[SWAP[1]] == idx[1] && s[SWAP[2]] == idx[2] && s[SWAP[3]] == idx[3];
  }

  /** One element of the permuted tensor and where it comes from. */
  lemma SwappedEntry<T>(data: seq<T>, heads: nat, inner: nat, rows: nat, h: nat, i: nat, p: nat, r: nat)
    requires |data| == Times(Times(Times(heads, 2), inner), rows)
    requires h < heads && i < inner && p < 2 && r < rows
    ensures IsPermutation(SWAP, 4)
    ensures var want := Permuted(Source(data, heads, inner, rows), SWAP).data;
            var dst, src := Times(Times(Times(h, inner) + i, 2) + p, rows) + r,
              Times(Times(Times(h, 2) + p, inner) + i, rows) + r;
            dst < |want| && src < |data| && want[dst] == data[src]
  {
    hide Times, Size, Ravel, Permuted, Scatter;
    var t, idx, src := Source(data, heads, inner, rows), [h, i, p, r], [h, p, i, r];
    SwapScatter(idx);
    var r4 := Permuted(t, SWAP);
    assert r4.dims == [heads, inner, 2, rows];
    assert InBounds(r4.dims, idx);
    RavelBound(r4.dims, idx);
    RavelBound(t.dims, src);
    Horner4(heads, inner, 2, rows, h, i, p, r);
    Horner4(heads, 2, inner, rows, h, p, i, r);
    assert r4.At(idx) == t.At(src);
  }

  /** Row (h, p, i) of the source is row (h, i, p) of the result. */
  lemma SwappedRow<T>(data: seq<T>, want: seq<T>, heads: nat, inner: nat, rows: nat, h: nat, i: nat, p: nat)
    requires |data| == Times(Times(Times(heads, 2), inner), rows) && IsPermutation(SWAP, 4)
    requires want == Permuted(Source(data, heads, inner, rows), SWAP).data
    requires h < heads && i < inner && p < 2
    ensures var dst, src := Times(Times(Times(h, inner) + i, 2) + p, rows),
              Times(Times(Times(h, 2) + p, inner) + i, rows);
            dst + rows <= |want| && src + rows <= |data| && want[dst..dst + rows] == data[src..src + rows]
  {
    hide Times, Size, Ravel, Permuted;
    var dst, src := Times(Times(Times(h, inner) + i, 2) + p, rows), Times(Times(Times(h, 2) + p, inner) + i, rows);
    RowEnds(heads, inner, rows, h, i, p);
    WantSize(data, heads, inner, rows);
    var a, b := want[dst..dst + rows], data[src..src + rows];
    forall r | 0 <= r < rows ensures a[r] == b[r] {
      SwappedEntry(data, heads, inner, rows, h, i, p, r);
    }
  }

  lemma RowEnds(heads: nat, inner: nat, rows: nat, h: nat, i: nat, p: nat)
    requires h < heads && i < inner && p < 2
    ensures Times(Times(Times(h, inner) + i, 2) + p, rows) + rows <= Times(Times(Times(heads, 2), inner), rows)
    ensures Times(Times(Times(h, 2) + p, inner) + i, rows) + rows <= Times(Times(Times(heads, 2), inner), rows)
  {
    hide Times;
    RowBound(h, heads, i, inner);
    RowBound(Times(h, inner) + i, Times(heads, inner), p, 2);
    TimesLe(Times(Times(h, inner) + i, 2) + p + 1, Times(Times(heads, inner), 2), rows);
    Distribute(Times(Times(h, inner) + i, 2) + p, 1, rows);
    RowBound(h, heads, p, 2);
    RowBound(Times(h, 2) + p, Times(heads, 2), i, inner);
    TimesLe(Times(Times(h, 2) + p, inner) + i + 1, Times(Times(heads, 2), inner), rows);
    Distribute(Times(Times(h, 2) + p, inner) + i, 1, rows);
    TimesOne(rows);
    Rotate(heads, inner, 2);
  }

  ghost function RepackErrorOf<T>(data: seq<T>, shape: seq<nat>, heads: nat): Option<RepackError> {
    if heads == 0 then Some(NoHeads)
    else if |shape| != 2 then Some(NotMatrix)
    else if shape[0] % (heads * 2) != 0 then Some(NotDivisible)
    else if |data| != shape[0] * shape[1] then Some(WrongLength)
    else None
  }

  method VisionQKRepack<T>(data: seq<T>, shape: seq<nat>, heads: nat) returns (r: Result<seq<T>, RepackError>)
    ensures RepackErrorOf(data, shape, heads) == if r.Failure? then Some(r.error) else None
    ensures r.Success? ==>
              var inner := shape[0] / heads / 2;
              |data| == Times(Times(Times(heads, 2), inner), shape[1]) && IsPermutation(SWAP, 4) &&
              r.value == Permuted(Source(data, heads, inner, shape[1]), SWAP).data
  {
    if heads == 0 {
      return Failure(NoHeads);
    }
    if |shape| != 2 {
      return Failure(NotMatrix);
    }
    if shape[0] % (heads * 2) != 0 {
      return Failure(NotDivisible);
    }
    var cols, rows := shape[0], shape[1];
    if |data| != cols * rows {
      return Failure(WrongLength);
    }
    var inner := cols / heads / 2;
    EvenHeads(cols, heads, rows);
    var out := CopyRows(data, heads, inner, rows);
    return Success(out);
  }

  lemma EvenHeads(cols: nat, heads: nat, rows: nat)
    requires heads > 0 && cols % (heads * 2) == 0
    ensures cols * rows == Times(Times(Times(heads, 2), cols / heads / 2), rows)
  {
    var q := cols / (heads * 2);
    assert cols == heads * 2 * q;
    assert cols / heads == 2 * q by {
      assert cols == heads * (2 * q);
      RowUnique(cols / heads, cols % heads, 2 * q, 0, heads);
    }
  }

  method CopyRows<T>(data: seq<T>, heads: nat, inner: nat, rows: nat) returns (out: seq<T>)
    requires |data| == Times(Times(Times(heads, 2), inner), rows)
    ensures IsPermutation(SWAP, 4) && out == Permuted(Source(data, heads, inner, rows), SWAP).data
  {
    hide Times, Size, Ravel, Permuted;
    assert IsPermutation(SWAP, 4);
    ghost var want := Permuted(Source(data, heads, inner, rows), SWAP).data;
    WantSize(data, heads, inner, rows);
    TimesNext(0, inner);
    TimesNext(0, 2);
    TimesNext(0, rows);
    out := [];
    for head := 0 to heads
      invariant Filled(out, want, Times(Times(Times(head, inner), 2), rows))
    {
      for innerIndex := 0 to inner
        invariant Filled(out, want, Times(Times(Times(head, inner) + innerIndex, 2), rows))
      {
        for pair := 0 to 2
          invariant Filled(out, want, Times(Times(Times(head, inner) + innerIndex, 2) + pair, rows))
        {
          SwappedRow(data, want, heads, inner, rows, head, innerIndex, pair);
          StartIs(head, inner, innerIndex, pair, rows);
          TimesNext(Times(Times(head, inner) + innerIndex, 2) + pair, rows);
          var start := ((head * 2 + pair) * inner + innerIndex) * rows;
          out := out + data[start..start + rows];
        }
        TimesNext(Times(head, inner) + innerIndex, 2);
      }
      TimesNext(head, inner);
    }
  }

  lemma WantSize<T>(data: seq<T>, heads: nat, inner: nat, rows: nat)
    requires |data| == Times(Times(Times(heads, 2), inner), rows)
    ensures IsPermutation(SWAP, 4)
    ensures |Permuted(Source(data, heads, inner, rows), SWAP).data| == |data|
              == Times(Times(Times(heads, inner), 2), rows)
  {
    ReindexSize([heads, 2, inner, rows], SWAP);
    Rotate(heads, inner, 2);
  }

  lemma StartIs(h: nat, inner: nat, i: nat, p: nat, rows: nat)
    ensures ((h * 2 + p) * inner + i) * rows == Times(Times(Times(h, 2) + p, inner) + i, rows)
  {}

  /** out is the first n entries of want. */
  ghost predicate Filled<T>(out: seq<T>, want: seq<T>, n: nat) {
    |out| == n <= |want| && out == want[..n]
  }
}
