/** The row decoders of compatmigrate/tensor_row.go and the float decoder of
    compatmigrate/source_tensor.go. */
module QuantRows {
  import opened QuantBlocks
  import opened Results
  import opened Shapes

  datatype RowError = NotDivisible | WrongLength | Unsupported | EmptyShape | BadShape | BadRow | ShortRead

  /** Bytes of block j of a row. */
  function Block(kind: Kind, b: seq<bv8>, j: nat): (blk: seq<bv8>)
    requires Times(j + 1, BlockBytes(kind)) <= |b|
    ensures |blk| == BlockBytes(kind)
  {
    TimesNext(j, BlockBytes(kind));
    b[Times(j, BlockBytes(kind))..Times(j + 1, BlockBytes(kind))]
  }

  /** Element k of a row of n. */
  function Element<F>(fl: Floats<F>, kind: Kind, b: seq<bv8>, n: nat, k: nat): F
    requires |b| == Times(n / BlockLen(kind), BlockBytes(kind)) && n % BlockLen(kind) == 0 && k < n
  {
    var len := BlockLen(kind);
    assert k / len < n / len;
    TimesLe(k / len + 1, n / len, BlockBytes(kind));
    At(fl, kind, Block(kind, b, k / len), k % len)
  }

  // ---- One block ----------------------------------------------------------

  method DecodeQ8_0Block<F>(fl: Floats<F>, blk: seq<bv8>, out: array<F>, at: nat)
    requires |blk| == 34 && at + 32 <= out.Length
    modifies out
    ensures forall i | 0 <= i < 32 :: out[at + i] == Q8At(fl, blk, i)
    ensures forall k | 0 <= k < out.Length && !(at <= k < at + 32) :: out[k] == old(out[k])
  {
    hide Signed;
    var d := fl.f16(blk[0], blk[1]);
    var qs := blk[2..34];
    for i := 0 to 32
      invariant forall j | 0 <= j < i :: out[at + j] == Q8At(fl, blk, j)
      invariant forall k | 0 <= k < out.Length && !(at <= k < at + i) :: out[k] == old(out[k])
    {
      out[at + i] := fl.mul(d, fl.ofInt(Signed(qs[i])));
    }
  }

  lemma HighBits(qh: bv32, j: nat)
    requires j < 16
    ensures LoHighBit(qh, Shift(j)) == Bit(qh, j) as bv8 << 4
    ensures HiHighBit(qh, Shift(j)) == Bit(qh, j + 16) as bv8 << 4
  {}

  method DecodeQ5_0Block<F>(fl: Floats<F>, blk: seq<bv8>, out: array<F>, at: nat)
    requires |blk| == 22 && at + 32 <= out.Length
    modifies out
    ensures forall i | 0 <= i < 32 :: out[at + i] == Q5At(fl, blk, i)
    ensures forall k | 0 <= k < out.Length && !(at <= k < at + 32) :: out[k] == old(out[k])
  {
    hide HighWord, LowNibble, HighNibble, LoHighBit, HiHighBit, Bit;
    var d := fl.f16(blk[0], blk[1]);
    var qh := HighWord(blk[2], blk[3], blk[4], blk[5]);
    var qs := blk[6..22];
    for j := 0 to 16
      invariant forall i | 0 <= i < j || 16 <= i < 16 + j :: out[at + i] == Q5At(fl, blk, i)
      invariant forall k | 0 <= k < out.Length && !(at <= k < at + 32) :: out[k] == old(out[k])
    {
      HighBits(qh, j);
      out[at + j] := fl.mul(d, fl.ofInt((LowNibble(qs[j]) | LoHighBit(qh, Shift(j))) as int - 16));
      out[at + j + 16] := fl.mul(d, fl.ofInt((HighNibble(qs[j]) | HiHighBit(qh, Shift(j))) as int - 16));
    }
  }

  /** Element l of pair j's first or second half. */
  lemma Q4Entry<F>(fl: Floats<F>, blk: seq<bv8>, j: nat, l: nat)
    requires |blk| == 144 && j < 4 && l < 32
    ensures var (sc, m) := ScaleMinK4(2 * j, blk[4..16]);
            Q4At(fl, blk, 64 * j + l) ==
            fl.sub(fl.mul(fl.mul(fl.f16(blk[0], blk[1]), fl.ofInt(sc as int)),
              fl.ofInt((blk[16..144][32 * j + l] & 0x0f) as int)),
                   fl.mul(fl.f16(blk[2], blk[3]), fl.ofInt(m as int)))
    ensures var (sc, m) := ScaleMinK4(2 * j + 1, blk[4..16]);
            Q4At(fl, blk, 64 * j + 32 + l) ==
            fl.sub(fl.mul(fl.mul(fl.f16(blk[0], blk[1]), fl.ofInt(sc as int)),
              fl.ofInt((blk[16..144][32 * j + l] >> 4) as int)),
                   fl.mul(fl.f16(blk[2], blk[3]), fl.ofInt(m as int)))
  {
    hide ScaleMinK4;
    var i := 64 * j + l;
    assert i / 64 == j && i % 32 == l && i / 32 == 2 * j;
    assert (i + 32) / 64 == j && (i + 32) % 32 == l && (i + 32) / 32 == 2 * j + 1;
  }

  method DecodeQ4KBlock<F>(fl: Floats<F>, blk: seq<bv8>, out: array<F>, at: nat)
    requires |blk| == 144 && at + 256 <= out.Length
    modifies out
    ensures forall i | 0 <= i < 256 :: out[at + i] == Q4At(fl, blk, i)
    ensures forall k | 0 <= k < out.Length && !(at <= k < at + 256) :: out[k] == old(out[k])
  {
    hide ScaleMinK4, Q4At;
    var d, min := fl.f16(blk[0], blk[1]), fl.f16(blk[2], blk[3]);
    var scales, qs := blk[4..16], blk[16..144];
    var outOffset, scaleIndex, qOffset := at, 0, 0;
    for j := 0 to 4
      invariant outOffset == at + 64 * j && scaleIndex == 2 * j && qOffset == 32 * j
      invariant forall i | 0 <= i < 64 * j :: out[at + i] == Q4At(fl, blk, i)
      invariant forall k | 0 <= k < out.Length && !(at <= k < at + 256) :: out[k] == old(out[k])
    {
      var first := ScaleMinK4(scaleIndex, scales);
      var d1, m1 := fl.mul(d, fl.ofInt(first.0 as int)), fl.mul(min, fl.ofInt(first.1 as int));
      var second := ScaleMinK4(scaleIndex + 1, scales);
      var d2, m2 := fl.mul(d, fl.ofInt(second.0 as int)), fl.mul(min, fl.ofInt(second.1 as int));
      for l := 0 to 32
        invariant forall i | 0 <= i < 64 * j + l :: out[at + i] == Q4At(fl, blk, i)
        invariant forall k | 0 <= k < out.Length && !(at <= k < at + 256) :: out[k] == old(out[k])
      {
        Q4Entry(fl, blk, j, l);
        out[outOffset + l] := fl.sub(fl.mul(d1, fl.ofInt((qs[qOffset + l] & 0x0f) as int)), m1);
      }
      for l := 0 to 32
        invariant forall i | 0 <= i < 64 * j + 32 + l :: out[at + i] == Q4At(fl, blk, i)
        invariant forall k | 0 <= k < out.Length && !(at <= k < at + 256) :: out[k] == old(out[k])
      {
        Q4Entry(fl, blk, j, l);
        out[outOffset + 32 + l] := fl.sub(fl.mul(d2, fl.ofInt((qs[qOffset + l] >> 4) as int)), m2);
      }
      outOffset, qOffset, scaleIndex := outOffset + 64, qOffset + 32, scaleIndex + 2;
    }
  }

  /** The element of a half, quarter and place, before scaling by the block. */
  function Q6Entry<F>(fl: Floats<F>, d: F, scale: bv8, q: bv8, h: bv8, g: nat): F
    requires g < 4
  {
    fl.mul(fl.mul(d, fl.ofInt(Signed(scale))), fl.ofInt(SixBits(q, h, g) as int - 32))
  }

  lemma Q6AtEntry<F>(fl: Floats<F>, blk: seq<bv8>, half: nat, g: nat, l: nat)
    requires |blk| == 210 && half < 2 && g < 4 && l < 32
    ensures Q6At(fl, blk, half * 128 + g * 32 + l) ==
            Q6Entry(fl, fl.f16(blk[208], blk[209]), blk[192..208][half * 8 + l / 16 + 2 * g],
                    blk[..128][half * 64 + g % 2 * 32 + l], blk[128..192][half * 32 + l], g)
  {
    hide SixBits, Signed, Six;
    var i := half * 128 + g * 32 + l;
    assert i / 16 == half * 8 + 2 * g + l / 16;
    SixAt(blk[..128], blk[128..192], half, g, l);
  }

  /** Where an element stands in its quarter. */
  function Column(i: nat): (c: nat)
    ensures c < 32
  {
    i % 32
  }

  /** Decodes place l of each of a half's four quarters. */
  method DecodeQ6KPlaces<F>(fl: Floats<F>, blk: seq<bv8>, out: array<F>, at: nat, half: nat, l: nat)
    requires |blk| == 210 && half < 2 && at + 256 <= out.Length && l < 32
    modifies out
    ensures forall i: nat | half * 128 <= i < half * 128 + 128 ::
              out[at + i] == if Column(i) == l then Q6At(fl, blk, i) else old(out[at + i])
    ensures forall k | 0 <= k < out.Length && !(at + half * 128 <= k < at + half * 128 + 128) :: out[k] == old(out[k])
  {
    hide Q6At, Q6Entry, Column;
    var ql, qh, scales, d := blk[..128], blk[128..192], blk[192..208], fl.f16(blk[208], blk[209]);
    var outOffset, qlOffset, qhOffset, scaleOffset := at + 128 * half, 64 * half, 32 * half, 8 * half;
    var sub := l / 16;
    out[outOffset + l] := Q6Entry(fl, d, scales[scaleOffset + sub], ql[qlOffset + l], qh[qhOffset + l], 0);
    out[outOffset + l + 32] := Q6Entry(fl, d, scales[scaleOffset + sub + 2], ql[qlOffset + l + 32],
                                      qh[qhOffset + l], 1);
    out[outOffset + l + 64] := Q6Entry(fl, d, scales[scaleOffset + sub + 4], ql[qlOffset + l], qh[qhOffset + l], 2);
    out[outOffset + l + 96] := Q6Entry(fl, d, scales[scaleOffset + sub + 6], ql[qlOffset + l + 32],
                                      qh[qhOffset + l], 3);
    Q6AtEntry(fl, blk, half, 0, l);
    Q6AtEntry(fl, blk, half, 1, l);
    Q6AtEntry(fl, blk, half, 2, l);
    Q6AtEntry(fl, blk, half, 3, l);
    forall i: nat | half * 128 <= i < half * 128 + 128
      ensures out[at + i] == if Column(i) == l then Q6At(fl, blk, i) else old(out[at + i])
    {
      Q6Quarter(half, l, i);
    }
  }

  lemma Q6Quarter(half: nat, l: nat, i: nat)
    requires l < 32 && half * 128 <= i < half * 128 + 128
    ensures var i0 := half * 128 + l; Column(i) == l <==> i == i0 || i == i0 + 32 || i == i0 + 64 || i == i0 + 96
  {
    hide Column;
    ColumnOf(i);
    ColumnIs(half * 4, l);
    ColumnIs(half * 4 + 1, l);
    ColumnIs(half * 4 + 2, l);
    ColumnIs(half * 4 + 3, l);
  }

  lemma ColumnOf(i: nat)
    ensures i == 32 * (i / 32) + Column(i)
  {}

  lemma ColumnIs(m: nat, c: nat)
    requires c < 32
    ensures Column(32 * m + c) == c
  {}

  method DecodeQ6KHalf<F>(fl: Floats<F>, blk: seq<bv8>, out: array<F>, at: nat, half: nat)
    requires |blk| == 210 && half < 2 && at + 256 <= out.Length
    modifies out
    ensures forall i | half * 128 <= i < half * 128 + 128 :: out[at + i] == Q6At(fl, blk, i)
    ensures forall k | 0 <= k < out.Length && !(at + half * 128 <= k < at + half * 128 + 128) :: out[k] == old(out[k])
  {
    hide Q6At;
    for l := 0 to 32
      invariant forall i: nat | half * 128 <= i < half * 128 + 128 && Column(i) < l :: out[at + i] == Q6At(fl, blk, i)
      invariant forall k | 0 <= k < out.Length && !(at + half * 128 <= k < at + half * 128 + 128) ::
                out[k] == old(out[k])
    {
      DecodeQ6KPlaces(fl, blk, out, at, half, l);
    }
  }

  method DecodeQ6KBlock<F>(fl: Floats<F>, blk: seq<bv8>, out: array<F>, at: nat)
    requires |blk| == 210 && at + 256 <= out.Length
    modifies out
    ensures forall i | 0 <= i < 256 :: out[at + i] == Q6At(fl, blk, i)
    ensures forall k | 0 <= k < out.Length && !(at <= k < at + 256) :: out[k] == old(out[k])
  {
    hide Q6At;
    for half := 0 to 2
      invariant forall i | 0 <= i < 128 * half :: out[at + i] == Q6At(fl, blk, i)
      invariant forall k | 0 <= k < out.Length && !(at <= k < at + 256) :: out[k] == old(out[k])
    {
      DecodeQ6KHalf(fl, blk, out, at, half);
    }
  }

  /** Decodes one block into its place. */
  method DecodeBlock<F>(fl: Floats<F>, kind: Kind, blk: seq<bv8>, out: array<F>, at: nat)
    requires !IsFloat(kind)
    requires |blk| == BlockBytes(kind) && at + BlockLen(kind) <= out.Length
    modifies out
    ensures forall i | 0 <= i < BlockLen(kind) :: out[at + i] == At(fl, kind, blk, i)
    ensures forall k | 0 <= k < out.Length && !(at <= k < at + BlockLen(kind)) :: out[k] == old(out[k])
  {
    hide Q8At, Q5At, Q4At, Q6At;
    match kind {
      case Q8_0 => DecodeQ8_0Block(fl, blk, out, at);
      case Q5_0 => DecodeQ5_0Block(fl, blk, out, at);
      case Q4_K => DecodeQ4KBlock(fl, blk, out, at);
      case Q6_K => DecodeQ6KBlock(fl, blk, out, at);
    }
  }

  // ---- One row ------------------------------------------------------------

  /** What decoding n elements of this kind from b yields. */
  ghost predicate RowIs<F>(fl: Floats<F>, kind: Kind, b: seq<bv8>, n: nat, out: seq<F>) {
    n % BlockLen(kind) == 0 && |b| == Times(n / BlockLen(kind), BlockBytes(kind)) && |out| == n &&
    forall k | 0 <= k < n :: out[k] == Element(fl, kind, b, n, k)
  }

  /** Element i of block j, by its place in the row. */
  lemma ElementAt<F>(fl: Floats<F>, kind: Kind, b: seq<bv8>, n: nat, j: nat, i: nat)
    requires n % BlockLen(kind) == 0 && |b| == Times(n / BlockLen(kind), BlockBytes(kind))
    requires j < n / BlockLen(kind) && i < BlockLen(kind)
    ensures j * BlockLen(kind) + i < n && Times(j + 1, BlockBytes(kind)) <= |b|
    ensures Element(fl, kind, b, n, j * BlockLen(kind) + i) == At(fl, kind, Block(kind, b, j), i)
  {
    hide At, Block, Times;
    TimesLe(j + 1, n / BlockLen(kind), BlockBytes(kind));
    var k := j * BlockLen(kind) + i;
    assert k / BlockLen(kind) == j && k % BlockLen(kind) == i;
  }

  /** The four row decoders, which differ only in their blocks. */
  method DecodeRow<F>(fl: Floats<F>, kind: Kind, b: seq<bv8>, n: nat) returns (r: Result<seq<F>, RowError>)
    requires !IsFloat(kind)
    ensures n % BlockLen(kind) != 0 <==> r == Failure(NotDivisible)
    ensures n % BlockLen(kind) == 0 && |b| != n / BlockLen(kind) * BlockBytes(kind) <==> r == Failure(WrongLength)
    ensures r.Success? <==> n % BlockLen(kind) == 0 && |b| == n / BlockLen(kind) * BlockBytes(kind)
    ensures r.Success? ==> RowIs(fl, kind, b, n, r.value)
  {
    hide At, Element;
    var len, bytes := BlockLen(kind), BlockBytes(kind);
    if n % len != 0 { return Failure(NotDivisible); }
    if |b| != n / len * bytes { return Failure(WrongLength); }
    var out := new F[n](_ => fl.zero);
    var blocks := n / len;
    TimesIs(blocks, bytes);
    for block := 0 to blocks
      invariant forall k | 0 <= k < block * len :: out[k] == Element(fl, kind, b, n, k)
    {
      var base := block * bytes;
      TimesIs(block, bytes);
      TimesNext(block, bytes);
      TimesLe(block + 1, blocks, bytes);
      DecodeBlock(fl, kind, b[base..base + bytes], out, block * len);
      forall k | block * len <= k < (block + 1) * len ensures out[k] == Element(fl, kind, b, n, k) {
        var i := k - block * len;
        ElementAt(fl, kind, b, n, block, i);
        assert out[block * len + i] == At(fl, kind, b[base..base + bytes], i);
      }
    }
    r := Success(out[..]);
  }

  // ---- Unquantized rows ---------------------------------------------------

  /** How many whole elements the bytes hold; a rest is not looked at. */
  function FloatCount(kind: Kind, b: seq<bv8>): nat { |b| / BlockBytes(kind) }

  /** The bytes of those elements. */
  function WholeBytes(kind: Kind, b: seq<bv8>): (w: seq<bv8>)
    ensures |w| == Times(FloatCount(kind, b), BlockBytes(kind))
  {
    b[..FloatCount(kind, b) * BlockBytes(kind)]
  }

  method DecodeFloatTensor<F>(fl: Floats<F>, kind: Kind, b: seq<bv8>) returns (out: seq<F>)
    requires IsFloat(kind)
    ensures RowIs(fl, kind, WholeBytes(kind, b), FloatCount(kind, b), out)
  {
    hide FloatOf, Element, Block, BlockBytes, Times, WholeBytes, FloatCount;
    var width, n := BlockBytes(kind), FloatCount(kind, b);
    ghost var whole := WholeBytes(kind, b);
    assert n / BlockLen(kind) == n;
    out := [];
    for i := 0 to n
      invariant |out| == i && forall k | 0 <= k < i :: out[k] == Element(fl, kind, whole, n, k)
    {
      FloatWhole(fl, kind, b, i);
      out := out + [FloatOf(fl, kind, b[i * width..i * width + width])];
    }
  }

  lemma FloatElement<F>(fl: Floats<F>, kind: Kind, b: seq<bv8>, n: nat, i: nat)
    requires IsFloat(kind) && |b| == Times(n, BlockBytes(kind)) && i < n
    ensures i * BlockBytes(kind) + BlockBytes(kind) <= |b|
    ensures var w := BlockBytes(kind); Element(fl, kind, b, n, i) == FloatOf(fl, kind, b[i * w..i * w + w])
  {
    hide FloatOf, BlockBytes;
    TimesLe(i + 1, n, BlockBytes(kind));
    TimesNext(i, BlockBytes(kind));
    TimesIs(i, BlockBytes(kind));
    assert i / 1 == i && i % 1 == 0;
  }

  lemma FloatWhole<F>(fl: Floats<F>, kind: Kind, b: seq<bv8>, i: nat)
    requires IsFloat(kind) && i < FloatCount(kind, b)
    ensures var w := BlockBytes(kind);
            i * w + w <= |b| &&
            Element(fl, kind, WholeBytes(kind, b), FloatCount(kind, b), i) == FloatOf(fl, kind, b[i * w..i * w + w])
  {
    hide FloatOf, Element, BlockBytes, Times;
    var w, whole := BlockBytes(kind), WholeBytes(kind, b);
    FloatElement(fl, kind, whole, FloatCount(kind, b), i);
    assert whole == b[..|whole|];
    hide WholeBytes, FloatCount;
    SliceOfPrefix(b, |whole|, i * w, i * w + w);
  }

  lemma SliceOfPrefix(b: seq<bv8>, n: nat, from: nat, to: nat)
    requires from <= to <= n <= |b|
    ensures b[..n][from..to] == b[from..to]
  {}

  // ---- A whole tensor, and one row of it ----------------------------------

  /** The types that can be decoded, and all others. */
  datatype TensorType = Decodable(kind: Kind) | OtherType

  /** Bytes of a row of this many elements; none when the blocks do not fit it. */
  function NumBytes(kind: Kind, cols: nat): int {
    if cols % BlockLen(kind) != 0 then -1 else cols / BlockLen(kind) * BlockBytes(kind)
  }

  method DecodeTensorRow<F>(fl: Floats<F>, ty: TensorType, b: seq<bv8>, n: nat) returns (r: Result<seq<F>, RowError>)
    ensures ty.OtherType? ==> r == Failure(Unsupported)
    ensures ty.Decodable? ==>
              (r.Success? <==> if IsFloat(ty.kind) then FloatCount(ty.kind, b) == n else NumBytes(ty.kind, n) == |b|)
    ensures r.Success? ==>
              ty.Decodable? && RowIs(fl, ty.kind, if IsFloat(ty.kind) then WholeBytes(ty.kind, b) else b, n, r.value)
  {
    match ty {
      case OtherType => r := Failure(Unsupported);
      case Decodable(kind) =>
        if IsFloat(kind) {
          var out := DecodeFloatTensor(fl, kind, b);
          if |out| != n { return Failure(WrongLength); }
          r := Success(out);
        } else {
          r := DecodeRow(fl, kind, b, n);
        }
    }
  }

  /** Bytes that are exactly those of n elements decode as a row of n. */
  lemma ExactRow(kind: Kind, b: seq<bv8>, n: nat)
    requires NumBytes(kind, n) == |b|
    ensures IsFloat(kind) ==> FloatCount(kind, b) == n && WholeBytes(kind, b) == b
  {}

  /** What reading this shape as quantized rows needs: rows and columns, whole
      blocks, and as many bytes. Dimensions past the second are not looked at. */
  function DataError(kind: Kind, b: seq<bv8>, shape: seq<nat>): Option<RowError> {
    if shape == [] then Some(EmptyShape)
    else
      var rows := if |shape| > 1 then shape[1] else 1;
      if rows == 0 || shape[0] == 0 then Some(BadShape)
      else if NumBytes(kind, shape[0]) <= 0 then Some(Unsupported)
      else if |b| != NumBytes(kind, shape[0]) * rows then Some(WrongLength)
      else None
  }

  function Rows(shape: seq<nat>): nat { if |shape| > 1 then shape[1] else 1 }

  /** The bytes of one row. */
  function RowOfBytes(b: seq<bv8>, rowBytes: nat, row: nat): seq<bv8>
    requires Times(row + 1, rowBytes) <= |b|
  {
    TimesNext(row, rowBytes);
    b[Times(row, rowBytes)..Times(row + 1, rowBytes)]
  }

  lemma DivExact(q: nat, kind: Kind)
    ensures (q * BlockLen(kind)) % BlockLen(kind) == 0 && (q * BlockLen(kind)) / BlockLen(kind) == q
  {}

  /** Whole rows hold whole blocks. */
  lemma RowsOfBlocks(kind: Kind, rows: nat, cols: nat)
    requires cols % BlockLen(kind) == 0
    ensures Times(rows, cols) % BlockLen(kind) == 0
    ensures Times(rows, cols) / BlockLen(kind) == Times(rows, cols / BlockLen(kind))
    ensures Times(rows, cols / BlockLen(kind) * BlockBytes(kind))
              == Times(Times(rows, cols / BlockLen(kind)), BlockBytes(kind))
  {
    var len, q := BlockLen(kind), cols / BlockLen(kind);
    assert cols == q * len;
    assert rows * cols == (rows * q) * len;
    DivExact(rows * q, kind);
    assert rows * (q * BlockBytes(kind)) == (rows * q) * BlockBytes(kind);
  }

  /** What is known of a tensor whose bytes fit its shape. */
  ghost predicate Fits(kind: Kind, b: seq<bv8>, rows: nat, cols: nat) {
    cols % BlockLen(kind) == 0 && |b| == Times(rows, RowBytes(kind, cols))
  }

  function RowBytes(kind: Kind, cols: nat): nat { cols / BlockLen(kind) * BlockBytes(kind) }

  lemma SliceOfSlice(b: seq<bv8>, lo: nat, hi: nat, from: nat, to: nat)
    requires lo <= hi <= |b| && from <= to <= hi - lo
    ensures b[lo..hi][from..to] == b[lo + from..lo + to]
  {
    var x, y := b[lo..hi][from..to], b[lo + from..lo + to];
    assert |x| == |y|;
    assert forall k | 0 <= k < |x| :: x[k] == b[lo + (from + k)];
  }

  /** Where block j of a row lies, counted in blocks and in bytes. */
  lemma BlockPlace(kind: Kind, rows: nat, cols: nat, row: nat, j: nat)
    requires cols % BlockLen(kind) == 0 && row < rows && j < cols / BlockLen(kind)
    ensures var q, bytes, rowBytes := cols / BlockLen(kind), BlockBytes(kind), RowBytes(kind, cols);
            var at := Times(row, q) + j;
            at < Times(rows, q) && Times(at + 1, bytes) <= Times(rows, rowBytes) &&
            Times(row + 1, rowBytes) <= Times(rows, rowBytes) &&
            Times(at, bytes) == Times(row, rowBytes) + Times(j, bytes) && Times(j + 1, bytes) <= rowBytes
  {
    var q, bytes, rowBytes := cols / BlockLen(kind), BlockBytes(kind), RowBytes(kind, cols);
    var at := Times(row, q) + j;
    TimesLe(row + 1, rows, rowBytes);
    RowBound(row, rows, j, q);
    RowsOfBlocks(kind, rows, cols);
    RowsOfBlocks(kind, row, cols);
    TimesLe(at + 1, Times(rows, q), bytes);
    TimesIs(q, bytes);
    TimesLe(j + 1, q, bytes);
    hide Times;
    Distribute(Times(row, q), j, bytes);
  }

  /** Block j of a row is the block of the tensor that many blocks on. */
  lemma BlockOfRow(kind: Kind, b: seq<bv8>, rows: nat, cols: nat, row: nat, j: nat)
    requires Fits(kind, b, rows, cols) && row < rows && j < cols / BlockLen(kind)
    ensures Times(row + 1, RowBytes(kind, cols)) <= |b|
    ensures var at := Times(row, cols / BlockLen(kind)) + j;
            at < Times(rows, cols / BlockLen(kind)) &&
            Times(at + 1, BlockBytes(kind)) <= |b| &&
            Times(j + 1, BlockBytes(kind)) <= |RowOfBytes(b, RowBytes(kind, cols), row)| &&
            Block(kind, RowOfBytes(b, RowBytes(kind, cols), row), j) == Block(kind, b, at)
  {
    hide Times, RowBytes, BlockBytes, BlockLen;
    var bytes, rowBytes := BlockBytes(kind), RowBytes(kind, cols);
    BlockPlace(kind, rows, cols, row, j);
    TimesNext(row, rowBytes);
    TimesNext(j, bytes);
    TimesNext(Times(row, cols / BlockLen(kind)) + j, bytes);
    SliceOfSlice(b, Times(row, rowBytes), Times(row + 1, rowBytes), Times(j, bytes), Times(j + 1, bytes));
  }

  /** Element k of a row, as an element of a block and of the tensor. */
  lemma ElementPlace(kind: Kind, rows: nat, cols: nat, row: nat, k: nat)
    requires cols % BlockLen(kind) == 0 && row < rows && k < cols
    ensures var j, i := k / BlockLen(kind), k % BlockLen(kind);
            j < cols / BlockLen(kind) && k == j * BlockLen(kind) + i && Times(row, cols) + k < Times(rows, cols) &&
            Times(row, cols) + k == (Times(row, cols / BlockLen(kind)) + j) * BlockLen(kind) + i
  {
    RowBound(row, rows, k, cols);
    RowsOfBlocks(kind, row, cols);
    hide Times;
    assert Times(row, cols) == Times(row, cols / BlockLen(kind)) * BlockLen(kind);
  }

  /** Decoding one row by itself gives the elements the whole tensor has there. */
  lemma ElementOfRow<F>(fl: Floats<F>, kind: Kind, b: seq<bv8>, rows: nat, cols: nat, row: nat, k: nat)
    requires Fits(kind, b, rows, cols) && row < rows && k < cols
    ensures Times(row + 1, RowBytes(kind, cols)) <= |b|
    ensures var mine := RowOfBytes(b, RowBytes(kind, cols), row);
            |mine| == Times(cols / BlockLen(kind), BlockBytes(kind)) &&
            |b| == Times(Times(rows, cols) / BlockLen(kind), BlockBytes(kind)) &&
            Times(rows, cols) % BlockLen(kind) == 0 && Times(row, cols) + k < Times(rows, cols) &&
            Element(fl, kind, mine, cols, k) == Element(fl, kind, b, Times(rows, cols), Times(row, cols) + k)
  {
    hide Times, At, Block, RowOfBytes, Element, BlockLen, BlockBytes;
    var len, rowBytes := BlockLen(kind), RowBytes(kind, cols);
    var j, i := k / len, k % len;
    ElementPlace(kind, rows, cols, row, k);
    RowsOfBlocks(kind, rows, cols);
    BlockOfRow(kind, b, rows, cols, row, j);
    RowLength(kind, b, rows, cols, row);
    ElementAt(fl, kind, b, Times(rows, cols), Times(row, cols / len) + j, i);
    ElementAt(fl, kind, RowOfBytes(b, rowBytes, row), cols, j, i);
  }

  lemma RowLength(kind: Kind, b: seq<bv8>, rows: nat, cols: nat, row: nat)
    requires Fits(kind, b, rows, cols) && row < rows
    ensures Times(row + 1, RowBytes(kind, cols)) <= |b|
    ensures |RowOfBytes(b, RowBytes(kind, cols), row)| == RowBytes(kind, cols)
    ensures RowBytes(kind, cols) == Times(cols / BlockLen(kind), BlockBytes(kind))
  {
    TimesLe(row + 1, rows, RowBytes(kind, cols));
    TimesNext(row, RowBytes(kind, cols));
    TimesIs(cols / BlockLen(kind), BlockBytes(kind));
    hide Times;
  }

  method CopyInto<F>(out: array<F>, at: nat, from: seq<F>)
    requires at + |from| <= out.Length
    modifies out
    ensures forall k | 0 <= k < |from| :: out[at + k] == from[k]
    ensures forall k | 0 <= k < out.Length && !(at <= k < at + |from|) :: out[k] == old(out[k])
  {
    forall k | 0 <= k < |from| { out[at + k] := from[k]; }
  }

  /** The first so many elements of out are those of the tensor. */
  ghost predicate Done<F>(fl: Floats<F>, kind: Kind, b: seq<bv8>, out: seq<F>, upto: nat) {
    |out| % BlockLen(kind) == 0 && |b| == Times(|out| / BlockLen(kind), BlockBytes(kind)) && upto <= |out| &&
    forall k | 0 <= k < upto :: out[k] == Element(fl, kind, b, |out|, k)
  }

  /** Decodes one row of a tensor into its place. */
  method DecodeRowInto<F>(fl: Floats<F>, kind: Kind, b: seq<bv8>, rows: nat, cols: nat, row: nat, out: array<F>)
    requires Fits(kind, b, rows, cols) && row < rows && out.Length == Times(rows, cols)
    requires Done(fl, kind, b, out[..], Times(row, cols))
    modifies out
    ensures Done(fl, kind, b, out[..], Times(row + 1, cols))
  {
    hide Element, BlockLen, BlockBytes, Times;
    var rowBytes := NumBytes(kind, cols);
    var start, at := Times(row, rowBytes), Times(row, cols);
    RowLength(kind, b, rows, cols, row);
    TimesNext(row, cols);
    TimesNext(row, rowBytes);
    TimesLe(row + 1, rows, cols);
    ExactRow(kind, b[start..start + rowBytes], cols);
    var decoded := DecodeTensorRow(fl, Decodable(kind), b[start..start + rowBytes], cols);
    assert decoded.Success?;
    CopyInto(out, at, decoded.value);
    forall k | at <= k < at + cols ensures out[k] == Element(fl, kind, b, out.Length, k) {
      ElementOfRow(fl, kind, b, rows, cols, row, k - at);
      assert out[at + (k - at)] == decoded.value[k - at];
    }
  }

  /** Decodes a quantized tensor row by row into one array. */
  method DecodeBlockData<F>(fl: Floats<F>, kind: Kind, b: seq<bv8>, shape: seq<nat>)
    returns (r: Result<seq<F>, RowError>)
    requires !IsFloat(kind)
    ensures DataError(kind, b, shape).Some? ==> r == Failure(DataError(kind, b, shape).value)
    ensures DataError(kind, b, shape).None? ==> r.Success? && RowIs(fl, kind, b, Times(Rows(shape), shape[0]), r.value)
  {
    hide Element, BlockLen, BlockBytes, Times;
    if shape == [] { return Failure(EmptyShape); }
    var cols, rows := shape[0], Rows(shape);
    if rows == 0 || cols == 0 { return Failure(BadShape); }
    var rowBytes := NumBytes(kind, cols);
    if rowBytes <= 0 { return Failure(Unsupported); }
    if |b| != rowBytes * rows { return Failure(WrongLength); }
    TimesIs(rows, rowBytes);
    assert Fits(kind, b, rows, cols);
    RowsOfBlocks(kind, rows, cols);
    var out := new F[Times(rows, cols)](_ => fl.zero);
    TimesNext(0, cols);
    for row := 0 to rows
      invariant Done(fl, kind, b, out[..], Times(row, cols))
    {
      DecodeRowInto(fl, kind, b, rows, cols, row, out);
    }
    r := Success(out[..]);
  }

  /** Decodes a tensor. The shape matters only to quantized ones. */
  method DecodeTensorData<F>(fl: Floats<F>, ty: TensorType, b: seq<bv8>, shape: seq<nat>)
    returns (r: Result<seq<F>, RowError>)
    ensures ty.OtherType? ==> r == Failure(Unsupported)
    ensures ty.Decodable? && IsFloat(ty.kind) ==>
              r.Success? && RowIs(fl, ty.kind, WholeBytes(ty.kind, b), FloatCount(ty.kind, b), r.value)
    ensures ty.Decodable? && !IsFloat(ty.kind) ==>
              if DataError(ty.kind, b, shape).Some? then r == Failure(DataError(ty.kind, b, shape).value)
              else r.Success? && RowIs(fl, ty.kind, b, Times(Rows(shape), shape[0]), r.value)
  {
    hide RowIs, BlockLen, BlockBytes, Times;
    match ty {
      case OtherType => r := Failure(Unsupported);
      case Decodable(kind) =>
        if IsFloat(kind) {
          var out := DecodeFloatTensor(fl, kind, b);
          r := Success(out);
        } else {
          r := DecodeBlockData(fl, kind, b, shape);
        }
    }
  }

  // ---- One row, read from its offset --------------------------------------

  /** A tensor's description: type, shape, and where its bytes start in a file. */
  datatype Source = Source(ty: TensorType, shape: seq<nat>, start: nat)

  /** The tensor's type decodes, its rows hold whole blocks, it has this row, and the
      file reaches the row's end. */
  predicate HasRow(file: seq<bv8>, t: Source, row: nat) {
    |t.shape| >= 2 && row < t.shape[1] && t.ty.Decodable? && NumBytes(t.ty.kind, t.shape[0]) > 0 &&
    t.start + Times(row + 1, NumBytes(t.ty.kind, t.shape[0])) <= |file|
  }

  /** Fetches and decodes one row without reading the rest. */
  method ExtractRow<F>(fl: Floats<F>, file: seq<bv8>, t: Source, row: nat) returns (r: Result<seq<F>, RowError>)
    ensures |t.shape| < 2 || row >= t.shape[1] ==> r == Failure(BadRow)
    ensures r.Success? <==> HasRow(file, t, row)
    ensures r.Success? ==>
              var rowBytes := NumBytes(t.ty.kind, t.shape[0]);
              Times(row, rowBytes) <= Times(row + 1, rowBytes) &&
              RowIs(fl, t.ty.kind, file[t.start + Times(row, rowBytes)..t.start + Times(row + 1, rowBytes)],
                t.shape[0], r.value)
  {
    hide BlockLen, BlockBytes, Element;
    if |t.shape| < 2 || row >= t.shape[1] { return Failure(BadRow); }
    if t.ty.OtherType? || NumBytes(t.ty.kind, t.shape[0]) <= 0 { return Failure(Unsupported); }
    var rowBytes := NumBytes(t.ty.kind, t.shape[0]);
    var offset := t.start + row * rowBytes;
    TimesIs(row, rowBytes);
    TimesNext(row, rowBytes);
    if offset + rowBytes > |file| { return Failure(ShortRead); }
    var read := file[offset..offset + rowBytes];
    assert read == file[t.start + Times(row, rowBytes)..t.start + Times(row + 1, rowBytes)];
    ExactRow(t.ty.kind, read, t.shape[0]);
    r := DecodeTensorRow(fl, t.ty, read, t.shape[0]);
  }

  /** A row fetched by its offset is that row of the whole decoded tensor. */
  lemma RowOfWhole<F>(fl: Floats<F>, kind: Kind, file: seq<bv8>, start: nat, rows: nat, cols: nat, row: nat,
          whole: seq<F>, mine: seq<F>)
    requires cols % BlockLen(kind) == 0 && row < rows
    requires start + Times(rows, RowBytes(kind, cols)) <= |file|
    requires RowIs(fl, kind, file[start..start + Times(rows, RowBytes(kind, cols))], Times(rows, cols), whole)
    requires start + Times(row + 1, RowBytes(kind, cols)) <= |file|
    requires Times(row, RowBytes(kind, cols)) <= Times(row + 1, RowBytes(kind, cols))
    requires RowIs(fl, kind,
                   file[start + Times(row, RowBytes(kind, cols))..start + Times(row + 1, RowBytes(kind, cols))],
                   cols, mine)
    ensures Times(row, cols) <= Times(row + 1, cols) <= |whole|
    ensures mine == whole[Times(row, cols)..Times(row + 1, cols)]
  {
    hide Times, RowBytes, Element, BlockLen, BlockBytes;
    var rowBytes := RowBytes(kind, cols);
    var b := file[start..start + Times(rows, rowBytes)];
    RowLength(kind, b, rows, cols, row);
    TimesNext(row, cols);
    TimesLe(row + 1, rows, cols);
    SliceOfSlice(file, start, start + Times(rows, rowBytes), Times(row, rowBytes), Times(row + 1, rowBytes));
    forall k | 0 <= k < cols ensures mine[k] == whole[Times(row, cols) + k] {
      ElementOfRow(fl, kind, b, rows, cols, row, k);
    }
  }
}
