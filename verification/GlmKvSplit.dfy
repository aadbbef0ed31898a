/** Splitting attn_kv_b into its key and value parts: compatmigrate/glm47_flash.go. */
module GlmKvSplit {
  import opened Shapes
  import opened Permutations
  import opened TensorLayout
  import opened SliceConcat
  import opened Results

  datatype Mla = Mla(numHeads: nat, qkNope: nat, vHeadDim: nat, kvLoraRank: nat)

  datatype KvbError = NotMatrix | UnknownLayout

  /** How the source is laid out, and the declared shapes of the two outputs
      (innermost dimension first, as the file format writes them). */
  datatype KvbPlan = KvbPlan(kvFirst: bool, numHeads: nat, kShape: seq<nat>, vShape: seq<nat>)

  function HeadCount(rows: nat, mla: Mla): nat {
    var perHead := mla.qkNope + mla.vHeadDim;
    if perHead > 0 && rows % perHead == 0 then rows / perHead else mla.numHeads
  }

  function SplitKVB(shape: seq<nat>, mla: Mla): Result<KvbPlan, KvbError> {
    if |shape| != 2 then Failure(NotMatrix)
    else if shape[0] == mla.kvLoraRank then Success(PlanFor(true, HeadCount(shape[1], mla), mla))
    else if shape[1] == mla.kvLoraRank then Success(PlanFor(false, HeadCount(shape[0], mla), mla))
    else Failure(UnknownLayout)
  }

  function PlanFor(kvFirst: bool, heads: nat, mla: Mla): KvbPlan {
    KvbPlan(kvFirst, heads, [mla.qkNope, mla.kvLoraRank, heads], [mla.kvLoraRank, mla.vHeadDim, heads])
  }

  const FLIP := [1, 0]
  const LAST_TWO := [0, 2, 1]

  function HeadDims(mla: Mla, heads: nat): seq<nat> {
    [heads, mla.qkNope + mla.vHeadDim, mla.kvLoraRank]
  }

  /** The source data with the latent rank innermost. */
  ghost function RankLast<T>(data: seq<T>, shape: seq<nat>, kvFirst: bool): (d: seq<T>)
    requires kvFirst ==> |shape| == 2 && |data| == Size(shape)
    ensures |d| == |data|
  {
    if kvFirst then
      ReindexSize(shape, FLIP);
      Permuted(Tensor(data, shape), FLIP).data
    else data
  }

  lemma MiddleDim(dims: seq<nat>, n: nat)
    requires |dims| == 3
    ensures dims[1 := n] == [dims[0], n, dims[2]]
  {}

  /** Keys: rank and position swapped within each head. */
  ghost function KeyPart<T>(d: Tensor<T>, mla: Mla): (k: Tensor<T>)
    requires d.Valid() && |d.dims| == 3 && d.dims[1] == mla.qkNope + mla.vHeadDim
    ensures k.Valid() && k.dims == [d.dims[0], d.dims[2], mla.qkNope]
  {
    assert IsPermutation(LAST_TWO, 3);
    var k := Permuted(Sliced(d, 1, 0, mla.qkNope), LAST_TWO);
    assert k.dims == [d.dims[0], d.dims[2], mla.qkNope];
    k
  }

  lemma ValueShape<T>(d: Tensor<T>, mla: Mla)
    requires d.Valid() && |d.dims| == 3 && d.dims[1] == mla.qkNope + mla.vHeadDim
    ensures var v := Sliced(d, 1, mla.qkNope, mla.qkNope + mla.vHeadDim);
            v.Valid() && v.dims == [d.dims[0], mla.vHeadDim, d.dims[2]]
  {
    hide *;
    MiddleDim(d.dims, mla.vHeadDim);
  }

  /** Values: the rest of each head, as it stands. */
  ghost function ValuePart<T>(d: Tensor<T>, mla: Mla): (v: Tensor<T>)
    requires d.Valid() && |d.dims| == 3 && d.dims[1] == mla.qkNope + mla.vHeadDim
    ensures v.Valid() && v.dims == [d.dims[0], mla.vHeadDim, d.dims[2]]
  {
    ValueShape(d, mla);
    Sliced(d, 1, mla.qkNope, mla.qkNope + mla.vHeadDim)
  }

  /** Either part. Only a source whose rank comes first must be a matrix and fit its
      declared shape. */
  method RepackKVB<T(0)>(data: seq<T>, shape: seq<nat>, mla: Mla, extractK: bool, kvFirst: bool, heads: nat)
    returns (r: Result<seq<T>, LayoutError>)
    ensures kvFirst && PermuteError(data, shape, FLIP).Some? ==>
              r == Failure(PermuteError(data, shape, FLIP).value)
    ensures r.Success? <==>
              (kvFirst ==> |shape| == 2 && |data| == Size(shape)) && |data| == Size(HeadDims(mla, heads))
    ensures r.Success? ==>
              var d := Tensor(RankLast(data, shape, kvFirst), HeadDims(mla, heads));
              r.value == if extractK then KeyPart(d, mla).data else ValuePart(d, mla).data
  {
    hide Size, Ravel, Permuted, Sliced;
    assert IsPermutation(FLIP, 2) && IsPermutation(LAST_TWO, 3);
    var work := data;
    if kvFirst {
      var flipped := PermuteTensor(data, shape, FLIP);
      if flipped.Failure? {
        return Failure(flipped.error);
      }
      work := flipped.value.data;
      ReindexSize(shape, FLIP);
    }
    var headDims := HeadDims(mla, heads);
    var check := CheckTensorDims(work, headDims);
    if check.Failure? {
      return Failure(check.error);
    }
    if !extractK {
      r := SliceTensorDim(work, headDims, 1, mla.qkNope, mla.qkNope + mla.vHeadDim);
      return;
    }
    var k := SliceTensorDim(work, headDims, 1, 0, mla.qkNope);
    assert k.Success?;  // the reshaped data fits, so neither step below can fail
    var keys := PermuteTensor(k.value, headDims[1 := mla.qkNope], LAST_TWO);
    assert keys.Success?;
    return Success(keys.value.data);
  }

  /** K[h][r][q] is D[h][q][r]. */
  lemma KeyEntry<T>(d: Tensor<T>, mla: Mla, h: nat, r: nat, q: nat)
    requires d.Valid() && |d.dims| == 3 && d.dims[1] == mla.qkNope + mla.vHeadDim
    requires h < d.dims[0] && r < d.dims[2] && q < mla.qkNope
    ensures KeyPart(d, mla).At([h, r, q]) == d.At([h, q, r])
  {
    hide Size, Ravel, Permuted, Sliced;
    var s := Sliced(d, 1, 0, mla.qkNope);
    var i := Scatter(LAST_TWO, [h, r, q]);
    assert i[LAST_TWO[0]] == h && i[LAST_TWO[1]] == r && i[LAST_TWO[2]] == q;
    assert i == [h, q, r] && Shift(i, 1, 0, 0) == i;
    assert KeyPart(d, mla).At([h, r, q]) == s.At(i);
  }

  /** V[h][v][r] is D[h][qkNope + v][r]. */
  lemma ValueEntry<T>(d: Tensor<T>, mla: Mla, h: nat, v: nat, r: nat)
    requires d.Valid() && |d.dims| == 3 && d.dims[1] == mla.qkNope + mla.vHeadDim
    requires h < d.dims[0] && v < mla.vHeadDim && r < d.dims[2]
    ensures ValuePart(d, mla).At([h, v, r]) == d.At([h, mla.qkNope + v, r])
  {
    hide Size, Ravel, Sliced;
    assert Shift([h, v, r], 1, 0, mla.qkNope) == [h, mla.qkNope + v, r];
  }

  /** Nothing is lost: the keys, swapped back, beside the values are the source. */
  lemma KeysAndValuesRejoin<T>(d: Tensor<T>, mla: Mla)
    requires d.Valid() && |d.dims| == 3 && d.dims[1] == mla.qkNope + mla.vHeadDim
    ensures IsPermutation(LAST_TWO, 3)
    ensures var parts := [Permuted(KeyPart(d, mla), LAST_TWO), ValuePart(d, mla)];
            Joinable(1, parts) && Joined(1, parts) == d
  {
    hide Size, Ravel, Permuted, Sliced, Joined, Joinable, Build, KeyPart;
    var widths := [mla.qkNope, mla.vHeadDim];
    assert Offset(widths, 1) == mla.qkNope && Offset(widths, 2) == d.dims[1];
    JoinedOfPieces(d, 1, widths);
    KeysBack(d, mla);
    assert Pieces(d, 1, widths)[0] == Piece(d, 1, widths, 0) && Pieces(d, 1, widths)[1] == Piece(d, 1, widths, 1);
    assert Pieces(d, 1, widths) == [Permuted(KeyPart(d, mla), LAST_TWO), ValuePart(d, mla)];
  }

  lemma KeysBack<T>(d: Tensor<T>, mla: Mla)
    requires d.Valid() && |d.dims| == 3 && d.dims[1] == mla.qkNope + mla.vHeadDim
    ensures IsPermutation(LAST_TWO, 3)
    ensures Permuted(KeyPart(d, mla), LAST_TWO) == Sliced(d, 1, 0, mla.qkNope)
  {
    hide Size, Ravel, Permuted, Sliced, Build;
    var keys := Sliced(d, 1, 0, mla.qkNope);
    PermuteCompose(keys, LAST_TWO, LAST_TWO);
    PermuteIdentity(keys, Reindex(LAST_TWO, LAST_TWO));
  }

  /** And the source file's own order comes back by flipping once more. */
  lemma FlipBack<T>(data: seq<T>, shape: seq<nat>, kvFirst: bool)
    requires |shape| == 2 && |data| == Size(shape)
    ensures IsPermutation(FLIP, 2) && Size([shape[1], shape[0]]) == |data|
    ensures data == if kvFirst then Permuted(Tensor(RankLast(data, shape, kvFirst), [shape[1], shape[0]]), FLIP).data
                    else RankLast(data, shape, kvFirst)
  {
    hide Size, Ravel, Permuted;
    assert IsPermutation(FLIP, 2);
    var t := Tensor(data, shape);
    assert Permuted(t, FLIP).dims == [shape[1], shape[0]];
    ReindexSize(shape, FLIP);
    PermuteCompose(t, FLIP, FLIP);
    PermuteIdentity(t, Reindex(FLIP, FLIP));
  }

  /** When the rows divide into heads, both repacks of a full source go through
      and fill exactly the declared shapes. */
  lemma PlanFits(shape: seq<nat>, mla: Mla)
    requires SplitKVB(shape, mla).Success?
    ensures var plan := SplitKVB(shape, mla).value;
            var rows := if plan.kvFirst then shape[1] else shape[0];
            (plan.numHeads * (mla.qkNope + mla.vHeadDim) == rows ==>
               Size(HeadDims(mla, plan.numHeads)) == Size(shape)) &&
            Size(plan.kShape) + Size(plan.vShape) == Size(HeadDims(mla, plan.numHeads)) &&
            Size(plan.kShape) == Size([plan.numHeads, mla.kvLoraRank, mla.qkNope]) &&
            Size(plan.vShape) == Size([plan.numHeads, mla.vHeadDim, mla.kvLoraRank])
  {
    hide Size, Times;
    var plan := SplitKVB(shape, mla).value;
    var n, q, v, r := plan.numHeads, mla.qkNope, mla.vHeadDim, mla.kvLoraRank;
    Horner3(n, q + v, r, 0, 0, 0);
    Horner3(q, r, n, 0, 0, 0);
    Horner3(r, v, n, 0, 0, 0);
    Horner3(n, r, q, 0, 0, 0);
    Horner3(n, v, r, 0, 0, 0);
    ShapeProducts(n, q, v, r);
    assert shape == [shape[0], shape[1]];
    Matrix(shape[0], shape[1], 0, 0);
    TimesIs(n, q + v);
    TimesCommutes(shape[0], shape[1]);
  }

  lemma ShapeProducts(n: nat, q: nat, v: nat, r: nat)
    ensures Times(Times(q, r), n) + Times(Times(r, v), n) == Times(Times(n, q + v), r)
    ensures Times(Times(q, r), n) == Times(Times(n, r), q) && Times(Times(r, v), n) == Times(Times(n, v), r)
  {
    assert q * r * n == n * r * q && r * v * n == n * v * r == v * n * r;
    assert n * (q + v) == n * q + n * v;
    assert (n * q + n * v) * r == n * q * r + n * v * r;
    assert n * q * r == n * r * q;
  }
}
