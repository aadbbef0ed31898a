/** Row-major shapes: sizes, multi-indices and the flat positions they name.
    The outermost dimension comes first, as in compatmigrate/tensor_layout.go. */
module Shapes {

  // ---- Products -----------------------------------------------------------

  /** The product of two lengths. It has a name so that proofs about positions
      can hide it, and work from the laws below instead. */
  function Times(n: nat, w: nat): nat { n * w }

  lemma TimesIs(n: nat, w: nat)
    ensures Times(n, w) == n * w
  {}

  lemma Distribute(a: nat, b: nat, w: nat)
    ensures Times(a + b, w) == Times(a, w) + Times(b, w)
  {}

  lemma TimesAssoc(a: nat, b: nat, c: nat)
    ensures Times(Times(a, b), c) == Times(a, Times(b, c))
  {}

  lemma TimesCommutes(a: nat, b: nat)
    ensures Times(a, b) == Times(b, a)
  {}

  lemma TimesOne(n: nat)
    ensures Times(n, 1) == n == Times(1, n) && Times(0, n) == 0
  {}

  lemma TimesNext(n: nat, w: nat)
    ensures Times(n + 1, w) == Times(n, w) + w && Times(0, w) == 0
  {}

  lemma TimesLe(a: nat, b: nat, w: nat)
    requires a <= b
    ensures Times(a, w) <= Times(b, w)
  {
    Distribute(a, b - a, w);
  }

  /** Entry r of row i, of n rows of width w, comes before the end of the rows. */
  lemma RowBound(i: nat, n: nat, r: nat, w: nat)
    requires i < n && r < w
    ensures Times(i, w) + r < Times(n, w)
  {
    TimesLe(i + 1, n, w);
  }

  /** Quotient and remainder name the row and the entry within it. */
  lemma RowOf(k: nat, n: nat, w: nat)
    requires k < Times(n, w)
    ensures w > 0 && k / w < n && k == Times(k / w, w) + k % w
  {
    if k / w >= n {
      TimesLe(n, k / w, w);
    }
  }

  /** Row and entry are determined by the position. */
  lemma RowUnique(i: nat, r: nat, j: nat, s: nat, w: nat)
    requires r < w && s < w && Times(i, w) + r == Times(j, w) + s
    ensures i == j && r == s
  {
    if i < j {
      RowBound(i, j, r, w);
    } else if j < i {
      RowBound(j, i, s, w);
    }
  }

  // ---- Positions and multi-indices ----------------------------------------

  /** Number of elements of a tensor with these dimensions. */
  function Size(dims: seq<nat>): nat {
    if dims == [] then 1 else Times(dims[0], Size(dims[1..]))
  }

  predicate InBounds(dims: seq<nat>, idx: seq<nat>) {
    |idx| == |dims| && forall k | 0 <= k < |dims| :: idx[k] < dims[k]
  }

  /** Row-major position of a multi-index. */
  function Ravel(dims: seq<nat>, idx: seq<nat>): nat
    requires |idx| == |dims|
  {
    if dims == [] then 0 else Times(idx[0], Size(dims[1..])) + Ravel(dims[1..], idx[1..])
  }

  /** Multi-index of a position. */
  function Unravel(dims: seq<nat>, i: nat): (idx: seq<nat>)
    requires i < Size(dims)
    ensures InBounds(dims, idx) && Ravel(dims, idx) == i
  {
    if dims == [] then []
    else
      var inner := Size(dims[1..]);
      RowOf(i, dims[0], inner);
      [i / inner] + Unravel(dims[1..], i % inner)
  }

  lemma {:induction false} RavelBound(dims: seq<nat>, idx: seq<nat>)
    requires InBounds(dims, idx)
    ensures Ravel(dims, idx) < Size(dims)
  {
    hide Times;
    if dims != [] {
      RavelBound(dims[1..], idx[1..]);
      RowBound(idx[0], dims[0], Ravel(dims[1..], idx[1..]), Size(dims[1..]));
    }
  }

  lemma {:induction false} RavelInjective(dims: seq<nat>, a: seq<nat>, b: seq<nat>)
    requires InBounds(dims, a) && InBounds(dims, b)
    requires Ravel(dims, a) == Ravel(dims, b)
    ensures a == b
  {
    hide Times;
    if dims != [] {
      RavelBound(dims[1..], a[1..]);
      RavelBound(dims[1..], b[1..]);
      RowUnique(a[0], Ravel(dims[1..], a[1..]), b[0], Ravel(dims[1..], b[1..]), Size(dims[1..]));
      RavelInjective(dims[1..], a[1..], b[1..]);
      assert a == [a[0]] + a[1..] && b == [b[0]] + b[1..];
    }
  }

  /** Ravel and Unravel are inverse bijections between the in-bounds
      multi-indices and the positions below Size. */
  lemma UnravelRavel(dims: seq<nat>, idx: seq<nat>)
    requires InBounds(dims, idx)
    ensures Ravel(dims, idx) < Size(dims) && Unravel(dims, Ravel(dims, idx)) == idx
  {
    RavelBound(dims, idx);
    RavelInjective(dims, Unravel(dims, Ravel(dims, idx)), idx);
  }

  lemma OneAxis(d: nat, i: nat)
    ensures Size([d]) == d && Ravel([d], [i]) == i
  {
    assert [d][1..] == [] && Size([d]) == Times(d, 1) && Ravel([d], [i]) == Times(i, 1);
  }

  /** The two-dimensional case written out. */
  lemma Matrix(n: nat, m: nat, i: nat, j: nat)
    ensures Size([n, m]) == Times(n, m) && Ravel([n, m], [i, j]) == Times(i, m) + j
  {
    assert [n, m][1..] == [m] && [i, j][1..] == [j];
    OneAxis(m, j);
  }

  // ---- Splitting a shape --------------------------------------------------

  lemma {:induction false} SizeConcat(a: seq<nat>, b: seq<nat>)
    ensures Size(a + b) == Times(Size(a), Size(b))
  {
    hide Times;
    if a == [] {
      assert a + b == b;
      TimesOne(Size(b));
    } else {
      SizeConcat(a[1..], b);
      assert (a + b)[1..] == a[1..] + b;
      TimesAssoc(a[0], Size(a[1..]), Size(b));
    }
  }

  lemma {:induction false} RavelConcat(da: seq<nat>, db: seq<nat>, ia: seq<nat>, ib: seq<nat>)
    requires |ia| == |da| && |ib| == |db|
    ensures Ravel(da + db, ia + ib) == Times(Ravel(da, ia), Size(db)) + Ravel(db, ib)
  {
    hide Times;
    if da == [] {
      assert da + db == db && ia + ib == ib;
      TimesOne(Size(db));
    } else {
      RavelConcat(da[1..], db, ia[1..], ib);
      assert (da + db)[1..] == da[1..] + db && (ia + ib)[1..] == ia[1..] + ib;
      SizeConcat(da[1..], db);
      TimesAssoc(ia[0], Size(da[1..]), Size(db));
      Distribute(Times(ia[0], Size(da[1..])), Ravel(da[1..], ia[1..]), Size(db));
    }
  }

  /** The innermost index counts single elements. */
  lemma RavelSnoc(dims: seq<nat>, idx: seq<nat>, d: nat, i: nat)
    requires |idx| == |dims|
    ensures Ravel(dims + [d], idx + [i]) == Times(Ravel(dims, idx), d) + i
    ensures Size(dims + [d]) == Times(Size(dims), d)
  {
    hide Times, Size, Ravel;
    RavelConcat(dims, [d], idx, [i]);
    SizeConcat(dims, [d]);
    OneAxis(d, i);
  }

  /** Positions of rank three and four in Horner form. */
  lemma Horner3(a: nat, b: nat, c: nat, i: nat, j: nat, k: nat)
    ensures Ravel([a, b, c], [i, j, k]) == Times(Times(i, b) + j, c) + k
    ensures Size([a, b, c]) == Times(Times(a, b), c)
  {
    hide Times, Ravel, Size;
    assert [a, b, c] == [a, b] + [c] && [i, j, k] == [i, j] + [k];
    RavelSnoc([a, b], [i, j], c, k);
    Matrix(a, b, i, j);
  }

  lemma Horner4(a: nat, b: nat, c: nat, d: nat, i: nat, j: nat, k: nat, l: nat)
    ensures Ravel([a, b, c, d], [i, j, k, l]) == Times(Times(Times(i, b) + j, c) + k, d) + l
    ensures Size([a, b, c, d]) == Times(Times(Times(a, b), c), d)
  {
    hide Times, Ravel, Size;
    assert [a, b, c, d] == [a, b, c] + [d] && [i, j, k, l] == [i, j, k] + [l];
    RavelSnoc([a, b, c], [i, j, k], d, l);
    Horner3(a, b, c, i, j, k);
  }

  /** A shape split at one dimension: the groups before it, the dimension itself,
      and the size of the block behind each of its indices. */
  lemma SplitAt(dims: seq<nat>, dim: nat)
    requires dim < |dims|
    ensures Size(dims) == Times(Size(dims[..dim]), Times(dims[dim], Size(dims[dim + 1..])))
  {
    assert dims == dims[..dim] + dims[dim..];
    SizeConcat(dims[..dim], dims[dim..]);
    assert dims[dim..][1..] == dims[dim + 1..];
  }

  /** Position of entry rest in block i of d blocks of w entries each, in the
      o-th group of such blocks. */
  function BlockPosition(o: nat, d: nat, i: nat, w: nat, rest: nat): nat {
    Times(Times(o, d) + i, w) + rest
  }

  lemma BlockPositionIs(o: nat, d: nat, i: nat, w: nat, rest: nat)
    ensures BlockPosition(o, d, i, w, rest) == (o * d + i) * w + rest
  {}

  lemma RavelSplitAt(dims: seq<nat>, idx: seq<nat>, dim: nat)
    requires |idx| == |dims| && dim < |dims|
    ensures Ravel(dims, idx)
         == BlockPosition(Ravel(dims[..dim], idx[..dim]), dims[dim], idx[dim], Size(dims[dim + 1..]),
                          Ravel(dims[dim + 1..], idx[dim + 1..]))
  {
    hide Times;
    var db, ib := dims[dim..], idx[dim..];
    assert dims == dims[..dim] + db && idx == idx[..dim] + ib;
    RavelConcat(dims[..dim], db, idx[..dim], ib);
    assert db[1..] == dims[dim + 1..] && ib[1..] == idx[dim + 1..];
    var o, w := Ravel(dims[..dim], idx[..dim]), Size(dims[dim + 1..]);
    TimesAssoc(o, dims[dim], w);
    Distribute(Times(o, dims[dim]), idx[dim], w);
  }

  // ---- Tensors ------------------------------------------------------------

  /** A tensor: flat data under a shape. */
  datatype Tensor<T> = Tensor(data: seq<T>, dims: seq<nat>) {
    ghost predicate Valid() { |data| == Size(dims) }

    /** The element at a multi-index. */
    function At(idx: seq<nat>): T
      requires Valid() && InBounds(dims, idx)
    {
      RavelBound(dims, idx);
      data[Ravel(dims, idx)]
    }
  }

  /** The tensor whose element at every multi-index is given by f. */
  ghost function Build<T>(dims: seq<nat>, f: seq<nat> --> T): (t: Tensor<T>)
    requires forall idx | InBounds(dims, idx) :: f.requires(idx)
    ensures t.Valid() && t.dims == dims
    ensures forall idx {:trigger t.At(idx)} | InBounds(dims, idx) :: t.At(idx) == f(idx)
  {
    var t := Tensor(seq(Size(dims), i requires 0 <= i < Size(dims) => f(Unravel(dims, i))), dims);
    assert forall idx | InBounds(dims, idx) :: t.At(idx) == f(idx) by {
      forall idx | InBounds(dims, idx) ensures t.At(idx) == f(idx) {
        UnravelRavel(dims, idx);
      }
    }
    t
  }

  /** Two tensors of one shape that agree at every multi-index are equal. */
  lemma Extensional<T>(a: Tensor<T>, b: Tensor<T>)
    requires a.Valid() && b.Valid() && a.dims == b.dims
    requires forall idx | InBounds(a.dims, idx) :: a.At(idx) == b.At(idx)
    ensures a == b
  {
    forall i | 0 <= i < |a.data| ensures a.data[i] == b.data[i] {
      var idx := Unravel(a.dims, i);
      assert a.At(idx) == b.At(idx);
    }
  }
}
