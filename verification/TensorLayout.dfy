/** The row-major layout engine: compatmigrate/tensor_layout.go. */
module TensorLayout {
  import opened Shapes
  import opened Permutations
  import opened Results

  // ---- Checking -----------------------------------------------------------

  datatype LayoutError = BadDims | BadLength | BadDim | BadRange | NoTensors | BadRank | Mismatch | BadPermutation

  ghost predicate IsShape(dims: seq<int>) {
    forall k | 0 <= k < |dims| :: 0 <= dims[k]
  }

  /** What checkTensorDims accepts: a shape, and exactly as many elements. */
  ghost predicate Fits<T>(data: seq<T>, dims: seq<int>) {
    IsShape(dims) && |data| == Size(dims)
  }

  /** Checked data under its shape. */
  function Shaped<T>(data: seq<T>, dims: seq<int>): (t: Tensor<T>)
    requires Fits(data, dims)
    ensures t.Valid() && t.data == data && t.dims == dims
  {
    Tensor(data, dims)
  }

  method TensorSize(dims: seq<nat>) returns (n: nat)
    ensures n == Size(dims)
  {
    n := 1;
    TimesOne(Size(dims));
    for i := 0 to |dims|
      invariant Times(n, Size(dims[i..])) == Size(dims)
    {
      TimesAssoc(n, dims[i], Size(dims[i + 1..]));
      assert dims[i..][1..] == dims[i + 1..];
      n := n * dims[i];
    }
    TimesOne(n);
  }

  method CheckTensorDims<T>(data: seq<T>, dims: seq<int>) returns (r: Result<seq<nat>, LayoutError>)
    ensures r.Success? <==> Fits(data, dims)
    ensures r.Success? ==> r.value == dims
    ensures r.Failure? ==> r.error == if IsShape(dims) then BadLength else BadDims
  {
    for i := 0 to |dims|
      invariant forall k | 0 <= k < i :: 0 <= dims[k]
    {
      if dims[i] < 0 {
        return Failure(BadDims);
      }
    }
    var want := TensorSize(dims);
    return if |data| == want then Success(dims) else Failure(BadLength);
  }

  // ---- Permuting axes -----------------------------------------------------

  /** The source multi-index behind an output one: s[perm[i]] == idx[i]. */
  function Scatter(perm: seq<int>, idx: seq<nat>): (s: seq<nat>)
    requires IsPermutation(perm, |idx|)
    ensures |s| == |idx| && forall i | 0 <= i < |idx| :: s[perm[i]] == idx[i]
  {
    Reindex(idx, Inverse(perm))
  }

  lemma ScatterInBounds(dims: seq<nat>, perm: seq<int>, idx: seq<nat>)
    requires IsPermutation(perm, |dims|) && InBounds(Reindex(dims, perm), idx)
    ensures InBounds(dims, Scatter(perm, idx))
  {
    var q := Inverse(perm);
    forall a | 0 <= a < |dims| ensures Scatter(perm, idx)[a] < dims[a] {
      assert Reindex(dims, perm)[q[a]] == dims[perm[q[a]]];
    }
  }

  /** numpy.transpose: result dimension i is source dimension perm[i]. */
  ghost function Permuted<T>(t: Tensor<T>, perm: seq<int>): (r: Tensor<T>)
    requires t.Valid() && IsPermutation(perm, |t.dims|)
    ensures r.Valid() && r.dims == Reindex(t.dims, perm)
    ensures forall idx {:trigger r.At(idx)} | InBounds(r.dims, idx) ::
              InBounds(t.dims, Scatter(perm, idx)) && r.At(idx) == t.At(Scatter(perm, idx))
  {
    var dims := Reindex(t.dims, perm);
    assert forall idx | InBounds(dims, idx) :: InBounds(t.dims, Scatter(perm, idx)) by {
      forall idx | InBounds(dims, idx) ensures InBounds(t.dims, Scatter(perm, idx)) {
        ScatterInBounds(t.dims, perm, idx);
      }
    }
    Build(dims, idx requires InBounds(dims, idx) => t.At(Scatter(perm, idx)))
  }

  /** Distance between neighbours along each axis. */
  function Strides(dims: seq<nat>): seq<nat> {
    seq(|dims|, i requires 0 <= i < |dims| => Size(dims[i + 1..]))
  }

  function Terms(idx: seq<nat>, strides: seq<nat>): seq<int>
    requires |idx| == |strides|
  {
    seq(|idx|, k requires 0 <= k < |idx| => Times(idx[k], strides[k]))
  }

  function Dot(idx: seq<nat>, strides: seq<nat>): int
    requires |idx| == |strides|
  {
    Sum(Terms(idx, strides))
  }

  lemma {:induction false} DotIsRavel(dims: seq<nat>, idx: seq<nat>)
    requires |idx| == |dims|
    ensures Dot(idx, Strides(dims)) == Ravel(dims, idx)
  {
    if dims != [] {
      DotIsRavel(dims[1..], idx[1..]);
      assert Strides(dims)[1..] == Strides(dims[1..]) by {
        forall i | 0 <= i < |dims| - 1 ensures Strides(dims)[1..][i] == Strides(dims[1..])[i] {
          assert dims[1..][i + 1..] == dims[i + 2..];
        }
      }
      assert Terms(idx, Strides(dims))[1..] == Terms(idx[1..], Strides(dims)[1..]);
    }
  }

  /** Walking the output with the reordered strides visits source positions. */
  lemma DotScatter(dims: seq<nat>, perm: seq<int>, idx: seq<nat>)
    requires IsPermutation(perm, |dims|) && |idx| == |dims|
    ensures Dot(idx, Reindex(Strides(dims), perm)) == Ravel(dims, Scatter(perm, idx))
  {
    var s := Scatter(perm, idx);
    assert Terms(idx, Reindex(Strides(dims), perm)) == Reindex(Terms(s, Strides(dims)), perm);
    ReindexSum(Terms(s, Strides(dims)), perm);
    DotIsRavel(dims, s);
  }

  lemma DotUpdate(idx: seq<nat>, strides: seq<nat>, axis: nat, v: nat)
    requires |idx| == |strides| && axis < |idx|
    ensures Dot(idx[axis := v], strides) + Times(idx[axis], strides[axis])
              == Dot(idx, strides) + Times(v, strides[axis])
  {
    var a, b := Terms(idx, strides), Terms(idx[axis := v], strides);
    assert a == a[..axis] + ([a[axis]] + a[axis + 1..]);
    assert b == a[..axis] + ([b[axis]] + a[axis + 1..]);
    SumConcat(a[..axis], [a[axis]] + a[axis + 1..]);
    SumConcat(a[..axis], [b[axis]] + a[axis + 1..]);
  }

  /** The product of the dimensions does not depend on their order. */
  lemma {:induction false} ReindexSize(dims: seq<nat>, perm: seq<int>)
    requires IsPermutation(perm, |dims|)
    ensures Size(Reindex(dims, perm)) == Size(dims)
  {
    if dims == [] {
      assert Reindex(dims, perm) == dims;
    } else {
      var last, r := [dims[|dims| - 1]], Reindex(dims, perm);
      var j, perm' := SplitReindex(dims, perm);
      ReindexSize(dims[..|dims| - 1], perm');
      assert dims == dims[..|dims| - 1] + last;
      SizeConcat(dims[..|dims| - 1], last);
      SizeConcat(r[..j] + last, r[j + 1..]);
      SizeConcat(r[..j], last);
      SizeConcat(r[..j], r[j + 1..]);
      assert Size(last) == Times(last[0], 1);
      TimesOne(last[0]);
      Rotate(Size(r[..j]), last[0], Size(r[j + 1..]));
    }
  }

  lemma Rotate(a: nat, b: nat, c: nat)
    ensures Times(Times(a, b), c) == Times(Times(a, c), b)
  {
    TimesAssoc(a, b, c);
    TimesCommutes(b, c);
    TimesAssoc(a, c, b);
  }

  function Zeros(n: nat): seq<nat> { seq(n, _ => 0) }

  lemma {:induction false} RavelZeros(dims: seq<nat>)
    ensures Ravel(dims, Zeros(|dims|)) == 0
  {
    if dims != [] {
      RavelZeros(dims[1..]);
      assert Zeros(|dims|)[1..] == Zeros(|dims| - 1);
    }
  }

  /** The last position of a shape has every index at its maximum. */
  lemma {:induction false} RavelLast(dims: seq<nat>, idx: seq<nat>)
    requires |idx| == |dims| && forall k | 0 <= k < |dims| :: idx[k] + 1 == dims[k]
    ensures Ravel(dims, idx) == Size(dims) - 1
  {
    if dims != [] {
      RavelLast(dims[1..], idx[1..]);
    }
  }

  /** idx with one axis raised and those behind it cleared. */
  function Carried(idx: seq<nat>, axis: nat): seq<nat>
    requires axis < |idx|
  {
    idx[..axis] + [idx[axis] + 1] + Zeros(|idx| - axis - 1)
  }

  /** idx with every index from axis on cleared. */
  function Cleared(idx: seq<nat>, axis: nat): seq<nat>
    requires axis <= |idx|
  {
    idx[..axis] + Zeros(|idx| - axis)
  }

  /** One tick of the odometer: raising an axis behind which every index stood
      at its maximum, and clearing those, moves to the next position. */
  lemma OdometerStep(dims: seq<nat>, idx: seq<nat>, axis: nat)
    requires |idx| == |dims| && axis < |dims|
    requires forall k | axis < k < |dims| :: idx[k] + 1 == dims[k]
    ensures Ravel(dims, Carried(idx, axis)) == Ravel(dims, idx) + 1
  {
    hide Ravel, Size, BlockPosition;
    var head, tail := dims[..axis], dims[axis + 1..];
    var next, outer := Carried(idx, axis), Ravel(head, idx[..axis]);
    RavelSplitAt(dims, idx, axis);
    RavelLast(tail, idx[axis + 1..]);
    NextBlock(outer, dims[axis], idx[axis], Size(tail));
    assert next[..axis] == idx[..axis] && next[axis] == idx[axis] + 1 && next[axis + 1..] == Zeros(|tail|);
    RavelSplitAt(dims, next, axis);
    RavelZeros(tail);
  }

  lemma NextBlock(outer: nat, d: nat, i: nat, w: nat)
    requires w > 0
    ensures BlockPosition(outer, d, i, w, w - 1) + 1 == BlockPosition(outer, d, i + 1, w, 0)
  {}

  /** The error for a permutation call, if it has one. */
  ghost function PermuteError<T>(data: seq<T>, dims: seq<int>, perm: seq<int>): Option<LayoutError> {
    if !IsShape(dims) then Some(BadDims)
    else if !Fits(data, dims) then Some(BadLength)
    else if |perm| != |dims| then Some(BadRank)
    else if !IsPermutation(perm, |dims|) then Some(BadPermutation)
    else None
  }

  method RowMajorStrides(dims: seq<nat>) returns (strides: seq<nat>)
    ensures strides == Strides(dims)
  {
    strides := [];
    var stride := 1;
    for i := |dims| downto 0
      invariant strides == Strides(dims)[i..] && stride == Size(dims[i..])
    {
      assert dims[i..][1..] == dims[i + 1..];
      strides := [stride] + strides;
      stride := dims[i] * stride;
    }
  }

  /** Rejects a repeated or out-of-range axis, and reorders the others. */
  method ReorderAxes(dims: seq<nat>, perm: seq<int>) returns (r: Option<(seq<nat>, seq<nat>)>)
    requires |perm| == |dims|
    ensures r.Some? <==> IsPermutation(perm, |dims|)
    ensures r.Some? ==> r.value == (Reindex(dims, perm), Reindex(Strides(dims), perm))
  {
    var srcStrides := RowMajorStrides(dims);
    var seen := seq(|dims|, _ => false);
    var outDims: seq<nat> := [];
    var strides: seq<nat> := [];
    for i := 0 to |perm|
      invariant |seen| == |dims| && |outDims| == |strides| == i
      invariant forall k | 0 <= k < i :: 0 <= perm[k] < |dims|
      invariant forall k | 0 <= k < i :: outDims[k] == dims[perm[k]] && strides[k] == srcStrides[perm[k]]
      invariant forall j, k | 0 <= j < k < i :: perm[j] != perm[k]
      invariant forall p | 0 <= p < |dims| :: seen[p] <==> exists k | 0 <= k < i :: perm[k] == p
    {
      var p := perm[i];
      if p < 0 || p >= |dims| || seen[p] {
        return None;
      }
      seen := seen[p := true];
      outDims := outDims + [dims[p]];
      strides := strides + [srcStrides[p]];
    }
    assert outDims == Reindex(dims, perm) && strides == Reindex(srcStrides, perm);
    return Some((outDims, strides));
  }

  /** One pass of the carry loop: moves idx on by one position (or, past the last
      one, back to the first) and src with it. */
  method Tick(idx: array<nat>, src: int, outDims: seq<nat>, strides: seq<nat>) returns (next: int)
    requires |outDims| == |strides| == idx.Length
    requires InBounds(outDims, idx[..]) && src == Dot(idx[..], strides)
    modifies idx
    ensures next == Dot(idx[..], strides)
    ensures var i := Ravel(outDims, old(idx[..]));
            i + 1 < Size(outDims) ==> InBounds(outDims, idx[..]) && Ravel(outDims, idx[..]) == i + 1
  {
    hide Size, Ravel, Dot;
    ghost var was := idx[..];
    next := src;
    var axis := idx.Length - 1;
    while axis >= 0
      invariant -1 <= axis < idx.Length
      invariant idx[..] == Cleared(was, axis + 1)
      invariant next == Dot(idx[..], strides)
      invariant forall k | axis < k < idx.Length :: was[k] + 1 == outDims[k]
    {
      ghost var before := idx[..];
      idx[axis] := idx[axis] + 1;
      next := next + strides[axis];
      if idx[axis] < outDims[axis] {
        assert idx[..] == before[axis := before[axis] + 1] == Carried(was, axis);
        DotUpdate(before, strides, axis, before[axis] + 1);
        OdometerStep(outDims, was, axis);
        return;
      }
      next := next - idx[axis] * strides[axis];
      idx[axis] := 0;
      assert idx[..] == before[axis := 0] == Cleared(was, axis);
      DotUpdate(before, strides, axis, 0);
      axis := axis - 1;
    }
    RavelLast(outDims, was);
  }

  method PermuteTensor<T(0)>(data: seq<T>, dims: seq<int>, perm: seq<int>) returns (r: Result<Tensor<T>, LayoutError>)
    ensures PermuteError(data, dims, perm) == if r.Failure? then Some(r.error) else None
    ensures r.Success? ==> r.value == Permuted(Tensor(data, dims), perm)
  {
    var check := CheckTensorDims(data, dims);
    if check.Failure? {
      return Failure(check.error);
    }
    if |perm| != |dims| {
      return Failure(BadRank);
    }
    var axes := ReorderAxes(check.value, perm);
    if axes.None? {
      return Failure(BadPermutation);
    }
    var (outDims, strides) := axes.value;
    ReindexSize(dims, perm);
    forall idx | InBounds(outDims, idx)
      ensures ReadsAt(data, Permuted(Tensor(data, dims), perm).data, outDims, strides, idx)
    {
      SourcePosition(Tensor(data, dims), perm, idx);
    }
    var out := Walk(data, outDims, strides, Permuted(Tensor(data, dims), perm).data);
    return Success(Tensor(out, outDims));
  }

  /** Position Dot(idx, strides) of data holds what want has at idx. */
  ghost predicate ReadsAt<T>(data: seq<T>, want: seq<T>, outDims: seq<nat>, strides: seq<nat>, idx: seq<nat>)
    requires |outDims| == |strides| == |idx|
  {
    var src, i := Dot(idx, strides), Ravel(outDims, idx);
    0 <= src < |data| && i < |want| && data[src] == want[i]
  }

  /** The odometer loop. */
  method Walk<T(0)>(data: seq<T>, outDims: seq<nat>, strides: seq<nat>, ghost want: seq<T>) returns (r: seq<T>)
    requires |outDims| == |strides| && |data| == |want| == Size(outDims)
    requires forall idx | InBounds(outDims, idx) :: ReadsAt(data, want, outDims, strides, idx)
    ensures r == want
  {
    var out := new T[|data|];
    var idx := new nat[|outDims|](_ => 0);
    var src := 0;
    StartAtZero(outDims, strides, idx[..]);
    for i := 0 to |data|
      invariant i < |data| ==> InBounds(outDims, idx[..]) && Ravel(outDims, idx[..]) == i
      invariant i < |data| ==> src == Dot(idx[..], strides)
      invariant forall k | 0 <= k < i :: out[k] == want[k]
    {
      ghost var was := idx[..];
      assert ReadsAt(data, want, outDims, strides, was);
      out[i] := data[src];
      assert idx[..] == was;
      src := Tick(idx, src, outDims, strides);
    }
    assert out[..] == want;
    return out[..];
  }

  lemma StartAtZero(dims: seq<nat>, strides: seq<nat>, idx: seq<nat>)
    requires |dims| == |strides| == |idx| && forall k | 0 <= k < |idx| :: idx[k] == 0
    ensures Ravel(dims, idx) == 0 && Dot(idx, strides) == 0
    ensures Size(dims) > 0 ==> InBounds(dims, idx)
  {
    assert idx == Zeros(|dims|);
    RavelZeros(dims);
    if dims != [] {
      StartAtZero(dims[1..], strides[1..], idx[1..]);
      assert Terms(idx, strides)[1..] == Terms(idx[1..], strides[1..]);
      if Size(dims) > 0 {
        assert forall k | 0 < k < |dims| :: idx[k] == idx[1..][k - 1] && dims[k] == dims[1..][k - 1];
      }
    }
  }

  /** The element the odometer reads is the one the permuted tensor holds there. */
  lemma SourcePosition<T>(t: Tensor<T>, perm: seq<int>, idx: seq<nat>)
    requires t.Valid() && IsPermutation(perm, |t.dims|)
    requires InBounds(Reindex(t.dims, perm), idx)
    ensures var src := Dot(idx, Reindex(Strides(t.dims), perm));
            var i := Ravel(Reindex(t.dims, perm), idx);
            0 <= src < |t.data| && i < |Permuted(t, perm).data| && t.data[src] == Permuted(t, perm).data[i]
  {
    ScatterInBounds(t.dims, perm, idx);
    DotScatter(t.dims, perm, idx);
    RavelBound(t.dims, Scatter(perm, idx));
    RavelBound(Reindex(t.dims, perm), idx);
    assert Permuted(t, perm).At(idx) == t.At(Scatter(perm, idx));
  }

  /** Permuting by p and then by q is permuting once by i -> p[q[i]]. */
  lemma PermuteCompose<T>(t: Tensor<T>, p: seq<int>, q: seq<int>)
    requires t.Valid() && IsPermutation(p, |t.dims|) && IsPermutation(q, |t.dims|)
    ensures IsPermutation(Reindex(p, q), |t.dims|)
    ensures Permuted(Permuted(t, p), q) == Permuted(t, Reindex(p, q))
  {
    hide Size, Ravel, Permuted, Scatter, Build;
    var pq := Reindex(p, q);
    var a, b := Permuted(Permuted(t, p), q), Permuted(t, pq);
    assert a.dims == b.dims;
    forall idx | InBounds(a.dims, idx) ensures a.At(idx) == b.At(idx) {
      ScatterCompose(p, q, idx);
      ScatterInBounds(Permuted(t, p).dims, q, idx);
    }
    Extensional(a, b);
  }

  lemma ScatterCompose(p: seq<int>, q: seq<int>, idx: seq<nat>)
    requires IsPermutation(p, |idx|) && IsPermutation(q, |idx|)
    ensures Scatter(p, Scatter(q, idx)) == Scatter(Reindex(p, q), idx)
  {
    var pq := Reindex(p, q);
    forall a | 0 <= a < |idx| ensures Scatter(p, Scatter(q, idx))[a] == Scatter(pq, idx)[a] {
      var k := Inverse(pq)[a];
      assert a == pq[k] == p[q[k]];
    }
  }

  /** Permuting by the inverse restores both data and dimensions. */
  lemma PermuteInverse<T>(t: Tensor<T>, p: seq<int>)
    requires t.Valid() && IsPermutation(p, |t.dims|)
    ensures Permuted(Permuted(t, p), Inverse(p)) == t
  {
    PermuteCompose(t, p, Inverse(p));
    PermuteIdentity(t, Reindex(p, Inverse(p)));
  }

  lemma PermuteIdentity<T>(t: Tensor<T>, id: seq<int>)
    requires t.Valid() && |id| == |t.dims| && forall k | 0 <= k < |id| :: id[k] == k
    ensures IsPermutation(id, |t.dims|) && Permuted(t, id) == t
  {
    var r := Permuted(t, id);
    assert r.dims == t.dims;
    forall idx | InBounds(t.dims, idx) ensures r.At(idx) == t.At(idx) {
      IdentityScatter(id, idx);
    }
    Extensional(r, t);
  }

  lemma IdentityScatter(id: seq<int>, idx: seq<nat>)
    requires |id| == |idx| && forall k | 0 <= k < |id| :: id[k] == k
    ensures IsPermutation(id, |idx|) && Scatter(id, idx) == idx
  {
    forall k | 0 <= k < |idx| ensures Scatter(id, idx)[k] == idx[k] {
      assert Scatter(id, idx)[id[k]] == idx[k];
    }
  }
}
