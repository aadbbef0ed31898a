/** Decoding block-FP8 weights: decodeSourceFP8Tensor of create/quantize.go. */
module Fp8Decode {
  import opened Shapes
  import opened MlxArrays
  import opened Results

  const BLOCK := 128

  /** ceil(n / 128): the blocks that cover n rows or columns. */
  function Blocks(n: nat): (s: nat)
    ensures BLOCK * s >= n && BLOCK * s < n + BLOCK
  {
    (n + BLOCK - 1) / BLOCK
  }

  datatype Fp8Error = MissingTensor | BadRank | BadScaleShape

  /** Elementwise conversions: FP8 to the decoded type, the product with a scale,
      and the cast of that product back to the decoded type. */
  datatype Arith<!E, !W, !S, !P> = Arith(fromFP8: E -> W, mul: (W, S) -> P, asType: P -> W, zero: W)

  function LeadOf(dims: seq<nat>): seq<nat>
    requires |dims| >= 2
  {
    dims[..|dims| - 2]
  }

  function ScaleShape(dims: seq<nat>): seq<nat>
    requires |dims| >= 2
  {
    LeadOf(dims) + [Blocks(dims[|dims| - 2]), Blocks(dims[|dims| - 1])]
  }

  ghost function DecodeSourceFP8<E, W, S, P>(weight: Option<Tensor<E>>, scale: Option<Tensor<S>>, ar: Arith<E, W, S, P>)
    : Result<Tensor<W>, Fp8Error>
    requires weight.Some? ==> weight.value.Valid()
    requires scale.Some? ==> scale.value.Valid()
  {
    if weight.None? || scale.None? then Failure(MissingTensor)
    else
      var rank := |weight.value.dims|;
      if (rank != 2 && rank != 3) || |scale.value.dims| != rank then Failure(BadRank)
      else if scale.value.dims != ScaleShape(weight.value.dims) then Failure(BadScaleShape)
      else Success(DecodeBlocks(weight.value, scale.value, ar))
  }

  predicate NeedsPadding(dims: seq<nat>)
    requires |dims| >= 2
  {
    var rows, cols := dims[|dims| - 2], dims[|dims| - 1];
    BLOCK * Blocks(rows) - rows > 0 || BLOCK * Blocks(cols) - cols > 0
  }

  /** What is added behind each axis. */
  function Missing(dims: seq<nat>): (pad: seq<nat>)
    requires |dims| >= 2
    ensures |pad| == |dims|
  {
    seq(|dims| - 2, _ => 0) +
    [BLOCK * Blocks(dims[|dims| - 2]) - dims[|dims| - 2], BLOCK * Blocks(dims[|dims| - 1]) - dims[|dims| - 1]]
  }

  /** Pads the trailing rows and columns to whole blocks, if they are not. */
  ghost function Padded<W>(decoded: Tensor<W>, zero: W): (r: Tensor<W>)
    requires decoded.Valid() && |decoded.dims| >= 2
    ensures r.Valid() && r.dims == PaddedDims(decoded.dims)
  {
    hide Size, Ravel, Times, Build;
    var r := if NeedsPadding(decoded.dims) then PadEnd(decoded, Missing(decoded.dims), zero) else decoded;
    assert r.dims == PaddedDims(decoded.dims);
    r
  }

  /** Padding leaves every element where it was. */
  lemma PaddedAt<W>(decoded: Tensor<W>, zero: W, idx: seq<nat>)
    requires decoded.Valid() && |decoded.dims| >= 2 && InBounds(decoded.dims, idx)
    ensures InBounds(PaddedDims(decoded.dims), idx) && Padded(decoded, zero).At(idx) == decoded.At(idx)
  {
    hide Size, Ravel, Times, Build, PadEnd;
    assert forall k | 0 <= k < |idx| :: idx[k] < decoded.dims[k] <= PaddedDims(decoded.dims)[k];
  }

  function PaddedDims(dims: seq<nat>): seq<nat>
    requires |dims| >= 2
  {
    LeadOf(dims) + [BLOCK * Blocks(dims[|dims| - 2]), BLOCK * Blocks(dims[|dims| - 1])]
  }

  function BlockedDims(dims: seq<nat>): seq<nat>
    requires |dims| >= 2
  {
    LeadOf(dims) + [Blocks(dims[|dims| - 2]), BLOCK, Blocks(dims[|dims| - 1]), BLOCK]
  }

  /** Two trailing axes of whole blocks and the four they are split into. */
  lemma BlockAxes(sr: nat, sc: nat, i: nat, b: nat, j: nat, d: nat)
    ensures Size([sr, BLOCK, sc, BLOCK]) == Size([BLOCK * sr, BLOCK * sc])
    ensures Ravel([sr, BLOCK, sc, BLOCK], [i, b, j, d])
         == Ravel([BLOCK * sr, BLOCK * sc], [i * BLOCK + b, j * BLOCK + d])
  {
    hide Size, Ravel;
    assert [sr, BLOCK, sc, BLOCK] == [sr, BLOCK] + [sc, BLOCK] && [i, b, j, d] == [i, b] + [j, d];
    SizeConcat([sr, BLOCK], [sc, BLOCK]);
    RavelConcat([sr, BLOCK], [sc, BLOCK], [i, b], [j, d]);
    Matrix(sr, BLOCK, i, b);
    Matrix(sc, BLOCK, j, d);
    Matrix(BLOCK * sr, BLOCK * sc, i * BLOCK + b, j * BLOCK + d);
  }

  /** Block row, row in the block, block column and column in the block. */
  function BlockIndex(idx: seq<nat>): seq<nat>
    requires |idx| >= 2
  {
    var r, c := idx[|idx| - 2], idx[|idx| - 1];
    LeadOf(idx) + [r / BLOCK, r % BLOCK, c / BLOCK, c % BLOCK]
  }

  /** The block that an element's scale belongs to. */
  function ScaleIndex(idx: seq<nat>): seq<nat>
    requires |idx| >= 2
  {
    LeadOf(idx) + [idx[|idx| - 2] / BLOCK, idx[|idx| - 1] / BLOCK]
  }

  lemma BlockedSize(dims: seq<nat>)
    requires |dims| >= 2
    ensures Size(BlockedDims(dims)) == Size(PaddedDims(dims))
  {
    hide Times, Size;
    var sr, sc := Blocks(dims[|dims| - 2]), Blocks(dims[|dims| - 1]);
    SizeConcat(LeadOf(dims), [sr, BLOCK, sc, BLOCK]);
    SizeConcat(LeadOf(dims), [BLOCK * sr, BLOCK * sc]);
    BlockAxes(sr, sc, 0, 0, 0, 0);
  }

  /** Splitting the block axes off keeps every element's position. */
  lemma BlockedPosition(dims: seq<nat>, idx: seq<nat>)
    requires |dims| >= 2 && InBounds(PaddedDims(dims), idx)
    ensures InBounds(BlockedDims(dims), BlockIndex(idx))
    ensures Ravel(BlockedDims(dims), BlockIndex(idx)) == Ravel(PaddedDims(dims), idx)
  {
    hide Times, Size, Ravel;
    var n := |dims|;
    var sr, sc := Blocks(dims[n - 2]), Blocks(dims[n - 1]);
    var r, c := idx[n - 2], idx[n - 1];
    assert r < BLOCK * sr && c < BLOCK * sc;
    forall k | 0 <= k < n + 2 ensures BlockIndex(idx)[k] < BlockedDims(dims)[k] {
      assert k < n - 2 ==> idx[k] < PaddedDims(dims)[k];
    }
    BlockAxes(sr, sc, r / BLOCK, r % BLOCK, c / BLOCK, c % BLOCK);
    assert idx == LeadOf(idx) + [r, c];
    RavelConcat(LeadOf(dims), [sr, BLOCK, sc, BLOCK], LeadOf(idx), [r / BLOCK, r % BLOCK, c / BLOCK, c % BLOCK]);
    RavelConcat(LeadOf(dims), [BLOCK * sr, BLOCK * sc], LeadOf(idx), [r, c]);
  }

  /** The scale with an axis of length one behind each of its block axes. */
  ghost function SpreadScale<S>(scale: Tensor<S>, n: nat): (r: Tensor<S>)
    requires scale.Valid() && |scale.dims| == n >= 2
    ensures r.Valid()
    ensures r.dims == LeadOf(scale.dims) + [scale.dims[n - 2], 1, scale.dims[n - 1], 1]
  {
    ExpandDims(ExpandDims(scale, n - 2 + 1), n - 2 + 3)
  }

  lemma SpreadScaleAt<S>(scale: Tensor<S>, n: nat, idx: seq<nat>)
    requires scale.Valid() && |scale.dims| == n >= 2 && InBounds(scale.dims, idx)
    ensures var j := LeadOf(idx) + [idx[n - 2], 0, idx[n - 1], 0];
            InBounds(SpreadScale(scale, n).dims, j) && SpreadScale(scale, n).At(j) == scale.At(idx)
  {
    hide Times, Size, Ravel;
    var one := ExpandDims(scale, n - 1);
    ExpandDimsAt(scale, n - 1, idx);
    var i := idx[..n - 1] + [0] + idx[n - 1..];
    ExpandDimsAt(one, n + 1, i);
    assert i[..n + 1] + [0] + i[n + 1..] == LeadOf(idx) + [idx[n - 2], 0, idx[n - 1], 0];
  }

  /** Every block times its own scale, over the four block axes. */
  ghost function ScaledBlocks<E, W, S, P>(weight: Tensor<E>, scale: Tensor<S>, ar: Arith<E, W, S, P>): (r: Tensor<W>)
    requires weight.Valid() && scale.Valid() && |weight.dims| >= 2 && scale.dims == ScaleShape(weight.dims)
    ensures r.Valid() && r.dims == BlockedDims(weight.dims)
  {
    BlockedSize(weight.dims);
    var blocked := Reshape(Padded(Map(weight, ar.fromFP8), ar.zero), BlockedDims(weight.dims));
    var scaleB := SpreadScale(scale, |weight.dims|);
    assert BroadcastDims(blocked.dims, scaleB.dims) == blocked.dims;
    Map(Broadcast(blocked, scaleB, ar.mul), ar.asType)
  }

  /** Pad to whole blocks, give each block its own pair of axes, scale block by
      block, restore the two axes and cut the padding off again. */
  ghost function DecodeBlocks<E, W, S, P>(weight: Tensor<E>, scale: Tensor<S>, ar: Arith<E, W, S, P>): (r: Tensor<W>)
    requires weight.Valid() && scale.Valid() && |weight.dims| >= 2 && scale.dims == ScaleShape(weight.dims)
    ensures r.Valid() && r.dims == weight.dims
  {
    BlockedSize(weight.dims);
    var restored := Reshape(ScaledBlocks(weight, scale, ar), PaddedDims(weight.dims));
    assert !NeedsPadding(weight.dims) ==> PaddedDims(weight.dims) == weight.dims;
    if NeedsPadding(weight.dims) then SliceStops(restored, weight.dims) else restored
  }

  lemma BlockInBounds(dims: seq<nat>, idx: seq<nat>)
    requires |dims| >= 2 && InBounds(dims, idx)
    ensures InBounds(PaddedDims(dims), idx) && InBounds(ScaleShape(dims), ScaleIndex(idx))
  {
    var n := |dims|;
    assert idx[n - 2] < dims[n - 2] && idx[n - 1] < dims[n - 1];
    forall k | 0 <= k < n
      ensures idx[k] < PaddedDims(dims)[k] && ScaleIndex(idx)[k] < ScaleShape(dims)[k]
    {
      assert idx[k] < dims[k];
    }
  }

  /** Which entries of the two factors meet at a block index. */
  lemma StretchBlocks(dims: seq<nat>, idx: seq<nat>)
    requires |dims| >= 2 && InBounds(dims, idx)
    ensures Stretch(BlockedDims(dims), BlockIndex(idx)) == BlockIndex(idx)
    ensures Stretch(LeadOf(dims) + [ScaleShape(dims)[|dims| - 2], 1, ScaleShape(dims)[|dims| - 1], 1], BlockIndex(idx))
         == LeadOf(idx) + [ScaleIndex(idx)[|idx| - 2], 0, ScaleIndex(idx)[|idx| - 1], 0]
  {
    BlockInBounds(dims, idx);
    BlockedPosition(dims, idx);
    var n := |dims|;
    assert forall k | 0 <= k < n + 2 :: BlockIndex(idx)[k] < BlockedDims(dims)[k];
  }

  /** The decode is elementwise: the element times the scale of its block. */
  lemma DecodeAt<E, W, S, P>(weight: Tensor<E>, scale: Tensor<S>, ar: Arith<E, W, S, P>, idx: seq<nat>)
    requires weight.Valid() && scale.Valid() && |weight.dims| >= 2 && scale.dims == ScaleShape(weight.dims)
    requires InBounds(weight.dims, idx)
    ensures InBounds(scale.dims, ScaleIndex(idx))
    ensures DecodeBlocks(weight, scale, ar).At(idx)
         == ar.asType(ar.mul(ar.fromFP8(weight.At(idx)), scale.At(ScaleIndex(idx))))
  {
    hide Times, Size, Ravel, Padded, SpreadScale, Build;
    var dims, n := weight.dims, |weight.dims|;
    var decoded := Map(weight, ar.fromFP8);
    var padded := Padded(decoded, ar.zero);
    BlockedSize(dims);
    var blocked := Reshape(padded, BlockedDims(dims));
    var j := BlockIndex(idx);
    BlockedPosition(dims, idx);
    PaddedAt(decoded, ar.zero, idx);
    ReshapeAt(padded, BlockedDims(dims), idx, j);
    ReshapeAt(ScaledBlocks(weight, scale, ar), PaddedDims(dims), j, idx);
    BlockInBounds(dims, idx);
    SpreadScaleAt(scale, n, ScaleIndex(idx));
    var scaleB := SpreadScale(scale, n);
    StretchBlocks(dims, idx);
    var product := Broadcast(blocked, scaleB, ar.mul);
    assert BroadcastDims(blocked.dims, scaleB.dims) == blocked.dims;
    assert product.At(j) == ar.mul(decoded.At(idx), scale.At(ScaleIndex(idx)));
  }

  /** A decoded tensor holds, at each index, the element times the scale of the block
      that its row and column fall in. */
  ghost predicate IsElementwise<E, W, S, P>(r: Tensor<W>, weight: Tensor<E>, scale: Tensor<S>, ar: Arith<E, W, S, P>)
    requires weight.Valid() && scale.Valid() && r.Valid() && |weight.dims| >= 2 && r.dims == weight.dims
  {
    forall idx {:trigger r.At(idx)} | InBounds(weight.dims, idx) ::
      InBounds(scale.dims, ScaleIndex(idx)) &&
      r.At(idx) == ar.asType(ar.mul(ar.fromFP8(weight.At(idx)), scale.At(ScaleIndex(idx))))
  }

  /** Decoding succeeds exactly for a matrix or a stack of matrices with one scale for
      each block, and is then elementwise. */
  lemma DecodeIsElementwise<E, W, S, P>(weight: Tensor<E>, scale: Tensor<S>, ar: Arith<E, W, S, P>)
    requires weight.Valid() && scale.Valid()
    ensures var r := DecodeSourceFP8(Some(weight), Some(scale), ar);
            (r.Success? <==>
             2 <= |weight.dims| <= 3 && |scale.dims| == |weight.dims| && scale.dims == ScaleShape(weight.dims)) &&
            (r.Success? ==> r.value.Valid() && r.value.dims == weight.dims && IsElementwise(r.value, weight, scale, ar))
  {
    hide Times, Size, Ravel, DecodeBlocks;
    var r := DecodeSourceFP8(Some(weight), Some(scale), ar);
    if r.Success? {
      forall idx | InBounds(weight.dims, idx)
        ensures InBounds(scale.dims, ScaleIndex(idx)) &&
                r.value.At(idx) == ar.asType(ar.mul(ar.fromFP8(weight.At(idx)), scale.At(ScaleIndex(idx))))
      {
        DecodeAt(weight, scale, ar, idx);
      }
    }
  }
}
