/** The quantized blocks that compatmigrate/tensor_row.go decodes: what element i
    of a block is, and that the packed integer fields are a bijection. */
module QuantBlocks {

  /** Floating-point operations, kept uninterpreted. */
  datatype Floats<!F> = Floats(
    zero: F, f16: (bv8, bv8) -> F, mul: (F, F) -> F, sub: (F, F) -> F, ofInt: int -> F,
    f32: (bv8, bv8, bv8, bv8) -> F, bf16: (bv8, bv8) -> F)

  datatype Kind = Q8_0 | Q5_0 | Q4_K | Q6_K | F32 | F16 | BF16

  /** Not quantized: every element is a block of its own. */
  predicate IsFloat(kind: Kind) { kind == F32 || kind == F16 || kind == BF16 }

  /** Elements per block, and bytes per block. */
  function BlockLen(kind: Kind): (n: nat)
    ensures n > 0
  {
    match kind case Q8_0 => 32 case Q5_0 => 32 case Q4_K => 256 case Q6_K => 256 case F32 | F16 | BF16 => 1
  }

  function BlockBytes(kind: Kind): (n: nat)
    ensures n > 0
  {
    match kind case Q8_0 => 34 case Q5_0 => 22 case Q4_K => 144 case Q6_K => 210 case F32 => 4 case F16 | BF16 => 2
  }

  /** A byte read as a signed number. */
  function Signed(q: bv8): int {
    if q < 128 then q as int else q as int - 256
  }

  // ---- Q8_0 ---------------------------------------------------------------

  function Q8At<F>(fl: Floats<F>, blk: seq<bv8>, i: nat): F
    requires |blk| == 34 && i < 32
  {
    fl.mul(fl.f16(blk[0], blk[1]), fl.ofInt(Signed(blk[2 + i])))
  }

  // ---- Q5_0: a low nibble and one high bit --------------------------------

  /** The four high-bit bytes as one little-endian word. */
  function HighWord(b0: bv8, b1: bv8, b2: bv8, b3: bv8): bv32 {
    (b0 as bv32) | ((b1 as bv32) << 8) | ((b2 as bv32) << 16) | ((b3 as bv32) << 24)
  }

  /** An element number as the distance a word is shifted by. */
  function Shift(i: nat): (s: bv8)
    requires i <= 32
    ensures s <= 32 && (i < 32 ==> s < 32)
  {
    i as bv8
  }

  /** The bits of a word from bit i on. */
  function From(w: bv32, i: nat): bv32
    requires i <= 32
  {
    Shifted(w, Shift(i))
  }

  function Shifted(w: bv32, s: bv8): bv32
    requires s <= 32
  {
    w >> s
  }

  function LastBit(w: bv32): (b: bv32)
    ensures b < 2
  {
    w & 1
  }

  /** Bit i of a word. */
  function Bit(w: bv32, i: nat): bv32
    requires i < 32
  {
    LastBit(From(w, i))
  }

  function LowNibble(q: bv8): bv8 { q & 0x0f }

  function HighNibble(q: bv8): bv8 { q >> 4 }

  /** The nibble of element i: low nibbles first, then the high ones. */
  function Nibble(qs: seq<bv8>, i: nat): bv8
    requires |qs| == 16 && i < 32
  {
    if i < 16 then LowNibble(qs[i]) else HighNibble(qs[i - 16])
  }

  /** The high bits as the decoder shifts them out: of the first sixteen numbers,
      and of the last sixteen. */
  function LoHighBit(qh: bv32, j: bv8): bv8
    requires j < 16
  {
    (((qh >> j) << 4) & 0x10) as bv8
  }

  function HiHighBit(qh: bv32, j: bv8): bv8
    requires j < 16
  {
    ((qh >> (j + 12)) & 0x10) as bv8
  }

  /** The five-bit number of element i. */
  function Five(w: bv32, qs: seq<bv8>, i: nat): bv8
    requires |qs| == 16 && i < 32
  {
    FiveBits(Nibble(qs, i), Bit(w, i) as bv8)
  }

  function FiveBits(nibble: bv8, bit: bv8): bv8 { nibble | (bit << 4) }

  function Q5At<F>(fl: Floats<F>, blk: seq<bv8>, i: nat): F
    requires |blk| == 22 && i < 32
  {
    fl.mul(fl.f16(blk[0], blk[1]), fl.ofInt(Five(HighWord(blk[2], blk[3], blk[4], blk[5]), blk[6..22], i) as int - 16))
  }

  // ---- Q4_K: sixteen six-bit scales and minimums in twelve bytes ----------

  function LowSix(q: bv8): bv8 { q & 63 }

  /** A low nibble under the top two bits of another byte. */
  function LowNibbleTop(q: bv8, top: bv8): bv8 { (q & 0x0f) | ((top >> 6) << 4) }

  /** A high nibble under the top two bits of another byte. */
  function HighNibbleTop(q: bv8, top: bv8): bv8 { (q >> 4) | ((top >> 6) << 4) }

  function ScaleMinK4(j: nat, q: seq<bv8>): (bv8, bv8)
    requires j < 8 && |q| == 12
  {
    if j < 4 then (LowSix(q[j]), LowSix(q[j + 4]))
    else (LowNibbleTop(q[j + 4], q[j - 4]), HighNibbleTop(q[j + 4], q[j]))
  }

  /** Sub-blocks of 32 elements; pairs of them share their bytes, nibble by nibble. */
  function Q4Nibble(qs: seq<bv8>, i: nat): bv8
    requires |qs| == 128 && i < 256
  {
    var q := qs[i / 64 * 32 + i % 32];
    if i % 64 < 32 then q & 0x0f else q >> 4
  }

  function Q4At<F>(fl: Floats<F>, blk: seq<bv8>, i: nat): F
    requires |blk| == 144 && i < 256
  {
    var (sc, m) := ScaleMinK4(i / 32, blk[4..16]);
    fl.sub(fl.mul(fl.mul(fl.f16(blk[0], blk[1]), fl.ofInt(sc as int)), fl.ofInt(Q4Nibble(blk[16..144], i) as int)),
           fl.mul(fl.f16(blk[2], blk[3]), fl.ofInt(m as int)))
  }

  // ---- Q6_K: a low nibble and two high bits -------------------------------

  /** The two high bits of quarter g. */
  function TopBits(h: bv8, g: nat): bv8
    requires g < 4
  {
    match g case 0 => h & 3 case 1 => (h >> 2) & 3 case 2 => (h >> 4) & 3 case 3 => (h >> 6) & 3
  }

  /** The six-bit number of element i: halves of 128 elements, quarters of 32. */
  function Six(ql: seq<bv8>, qh: seq<bv8>, i: nat): bv8
    requires |ql| == 128 && |qh| == 64 && i < 256
  {
    var half, g, l := i / 128, i % 128 / 32, i % 32;
    SixBits(ql[half * 64 + g % 2 * 32 + l], qh[half * 32 + l], g)
  }

  /** A nibble of q under quarter g's two bits of h. */
  function SixBits(q: bv8, h: bv8, g: nat): bv8
    requires g < 4
  {
    (if g < 2 then q & 0x0f else q >> 4) | (TopBits(h, g) << 4)
  }

  function Q6At<F>(fl: Floats<F>, blk: seq<bv8>, i: nat): F
    requires |blk| == 210 && i < 256
  {
    fl.mul(fl.mul(fl.f16(blk[208], blk[209]), fl.ofInt(Signed(blk[192 + i / 16]))),
           fl.ofInt(Six(blk[..128], blk[128..192], i) as int - 32))
  }

  /** Element i of a block. */
  function At<F>(fl: Floats<F>, kind: Kind, blk: seq<bv8>, i: nat): F
    requires |blk| == BlockBytes(kind) && i < BlockLen(kind)
  {
    match kind
    case Q8_0 => Q8At(fl, blk, i)
    case Q5_0 => Q5At(fl, blk, i)
    case Q4_K => Q4At(fl, blk, i)
    case Q6_K => Q6At(fl, blk, i)
    case F32 | F16 | BF16 => FloatOf(fl, kind, blk)
  }

  /** An unquantized element. */
  function FloatOf<F>(fl: Floats<F>, kind: Kind, blk: seq<bv8>): F
    requires IsFloat(kind) && |blk| == BlockBytes(kind)
  {
    if kind == F32 then fl.f32(blk[0], blk[1], blk[2], blk[3])
    else if kind == F16 then fl.f16(blk[0], blk[1])
    else fl.bf16(blk[0], blk[1])
  }

  // ---- Packing Q4_K scales ------------------------------------------------

  ghost predicate AllBelow(xs: seq<bv8>, n: nat, bound: bv8) {
    |xs| == n && forall k | 0 <= k < n :: xs[k] < bound
  }

  /** Six bits with two bits of another number above them. */
  function WithTop(a: bv8, c: bv8): bv8 { (a & 63) | ((c >> 4) << 6) }

  /** Two low nibbles in one byte. */
  function Nibbles(lo: bv8, hi: bv8): bv8 { (lo & 0x0f) | ((hi & 0x0f) << 4) }

  /** The twelve bytes that hold these eight scales and minimums. */
  function PackScales(sc: seq<bv8>, m: seq<bv8>): (q: seq<bv8>)
    requires |sc| == 8 && |m| == 8
    ensures |q| == 12
  {
    seq(4, j requires 0 <= j < 4 => WithTop(sc[j], sc[j + 4])) +
    seq(4, j requires 0 <= j < 4 => WithTop(m[j], m[j + 4])) +
    seq(4, j requires 0 <= j < 4 => Nibbles(sc[j + 4], m[j + 4]))
  }

  function UnpackScales(q: seq<bv8>): (seq<bv8>, seq<bv8>)
    requires |q| == 12
  {
    (seq(8, j requires 0 <= j < 8 => ScaleMinK4(j, q).0), seq(8, j requires 0 <= j < 8 => ScaleMinK4(j, q).1))
  }

  lemma SixBitPairs(a: bv8, b: bv8, c: bv8, d: bv8)
    requires a < 64 && b < 64 && c < 64 && d < 64
    ensures var q0, q4, q8 := WithTop(a, c), WithTop(b, d), Nibbles(c, d);
            LowSix(q0) == a && LowSix(q4) == b && LowNibbleTop(q8, q0) == c && HighNibbleTop(q8, q4) == d
  {}

  lemma ThreeBytes(q0: bv8, q4: bv8, q8: bv8)
    ensures var a, b, c, d := LowSix(q0), LowSix(q4), LowNibbleTop(q8, q0), HighNibbleTop(q8, q4);
            a < 64 && b < 64 && c < 64 && d < 64 && WithTop(a, c) == q0 && WithTop(b, d) == q4 && Nibbles(c, d) == q8
  {}

  /** Unpacking the scales of any twelve bytes and packing them again returns the
      bytes, and every eight six-bit pairs are what some twelve bytes unpack to. */
  lemma ScalesUnpackPack(q: seq<bv8>)
    requires |q| == 12
    ensures AllBelow(UnpackScales(q).0, 8, 64) && AllBelow(UnpackScales(q).1, 8, 64)
    ensures PackScales(UnpackScales(q).0, UnpackScales(q).1) == q
  {
    hide LowSix, LowNibbleTop, HighNibbleTop, WithTop, Nibbles;
    var sc, m := UnpackScales(q).0, UnpackScales(q).1;
    forall k | 0 <= k < 8 ensures sc[k] < 64 && m[k] < 64 {
      var j := if k < 4 then k else k - 4;
      ThreeBytes(q[j], q[j + 4], q[j + 8]);
    }
    var p := PackScales(sc, m);
    forall k | 0 <= k < 12 ensures p[k] == q[k] {
      var j := if k < 4 then k else if k < 8 then k - 4 else k - 8;
      ThreeBytes(q[j], q[j + 4], q[j + 8]);
    }
  }

  lemma ScalesPackUnpack(sc: seq<bv8>, m: seq<bv8>)
    requires AllBelow(sc, 8, 64) && AllBelow(m, 8, 64)
    ensures UnpackScales(PackScales(sc, m)) == (sc, m)
  {
    hide LowSix, LowNibbleTop, HighNibbleTop, WithTop, Nibbles;
    var q := PackScales(sc, m);
    forall k | 0 <= k < 8 ensures ScaleMinK4(k, q) == (sc[k], m[k]) {
      var j := if k < 4 then k else k - 4;
      SixBitPairs(sc[j], m[j], sc[j + 4], m[j + 4]);
    }
    assert UnpackScales(q).0 == sc && UnpackScales(q).1 == m;
  }

  // ---- Packing Q6_K -------------------------------------------------------

  function TopPair(a: bv8, b: bv8, c: bv8, d: bv8): bv8 {
    (a >> 4) | ((b >> 4) << 2) | ((c >> 4) << 4) | ((d >> 4) << 6)
  }

  /** The low-nibble bytes of 256 six-bit numbers. */
  function PackLow(v: seq<bv8>): (ql: seq<bv8>)
    requires |v| == 256
    ensures |ql| == 128
  {
    seq(128, k requires 0 <= k < 128 => Nibbles(v[k / 64 * 128 + k % 64], v[k / 64 * 128 + k % 64 + 64]))
  }

  /** Their high-bit bytes, four numbers in each. */
  function PackHigh(v: seq<bv8>): (qh: seq<bv8>)
    requires |v| == 256
    ensures |qh| == 64
  {
    seq(64, k requires 0 <= k < 64 =>
      var at := k / 32 * 128 + k % 32; TopPair(v[at], v[at + 32], v[at + 64], v[at + 96]))
  }

  function UnpackSix(ql: seq<bv8>, qh: seq<bv8>): (v: seq<bv8>)
    requires |ql| == 128 && |qh| == 64
    ensures |v| == 256
  {
    seq(256, i requires 0 <= i < 256 => Six(ql, qh, i))
  }

  lemma FourPacked(a: bv8, b: bv8, c: bv8, d: bv8)
    requires a < 64 && b < 64 && c < 64 && d < 64
    ensures var q0, q1, h := Nibbles(a, c), Nibbles(b, d), TopPair(a, b, c, d);
            SixBits(q0, h, 0) == a && SixBits(q1, h, 1) == b && SixBits(q0, h, 2) == c && SixBits(q1, h, 3) == d
  {}

  lemma ThreeUnpacked(q0: bv8, q1: bv8, h: bv8)
    ensures var a, b, c, d := SixBits(q0, h, 0), SixBits(q1, h, 1), SixBits(q0, h, 2), SixBits(q1, h, 3);
            a < 64 && b < 64 && c < 64 && d < 64 &&
            Nibbles(a, c) == q0 && Nibbles(b, d) == q1 && TopPair(a, b, c, d) == h
  {}

  /** Element i of half, quarter and place. */
  lemma SixAt(ql: seq<bv8>, qh: seq<bv8>, half: nat, g: nat, l: nat)
    requires |ql| == 128 && |qh| == 64 && half < 2 && g < 4 && l < 32
    ensures Six(ql, qh, half * 128 + g * 32 + l) == SixBits(ql[half * 64 + g % 2 * 32 + l], qh[half * 32 + l], g)
  {
    hide SixBits;
    var i := half * 128 + g * 32 + l;
    assert i / 128 == half && i % 128 / 32 == g && i % 32 == l;
  }

  /** The four numbers that share byte l of half's high bits. */
  lemma UnpackedQuad(ql: seq<bv8>, qh: seq<bv8>, half: nat, l: nat)
    requires |ql| == 128 && |qh| == 64 && half < 2 && l < 32
    ensures var v, at, q0, q1, h := UnpackSix(ql, qh), half * 128 + l, ql[half * 64 + l], ql[half * 64 + 32 + l],
              qh[half * 32 + l];
            v[at] == SixBits(q0, h, 0) && v[at + 32] == SixBits(q1, h, 1) &&
            v[at + 64] == SixBits(q0, h, 2) && v[at + 96] == SixBits(q1, h, 3)
  {
    hide SixBits, Six;
    SixAt(ql, qh, half, 0, l);
    SixAt(ql, qh, half, 1, l);
    SixAt(ql, qh, half, 2, l);
    SixAt(ql, qh, half, 3, l);
  }

  lemma PackedQuad(v: seq<bv8>, half: nat, l: nat)
    requires |v| == 256 && half < 2 && l < 32
    ensures var at := half * 128 + l;
            PackLow(v)[half * 64 + l] == Nibbles(v[at], v[at + 64]) &&
            PackLow(v)[half * 64 + 32 + l] == Nibbles(v[at + 32], v[at + 96]) &&
            PackHigh(v)[half * 32 + l] == TopPair(v[at], v[at + 32], v[at + 64], v[at + 96])
  {
    hide Nibbles, TopPair;
    assert (half * 64 + l) / 64 == half && (half * 64 + l) % 64 == l;
    assert (half * 64 + 32 + l) / 64 == half && (half * 64 + 32 + l) % 64 == 32 + l;
    assert (half * 32 + l) / 32 == half && (half * 32 + l) % 32 == l;
  }

  lemma QuadUnpackPack(ql: seq<bv8>, qh: seq<bv8>, half: nat, l: nat)
    requires |ql| == 128 && |qh| == 64 && half < 2 && l < 32
    ensures var v, at := UnpackSix(ql, qh), half * 128 + l;
            v[at] < 64 && v[at + 32] < 64 && v[at + 64] < 64 && v[at + 96] < 64 &&
            PackLow(v)[half * 64 + l] == ql[half * 64 + l] &&
            PackLow(v)[half * 64 + 32 + l] == ql[half * 64 + 32 + l] &&
            PackHigh(v)[half * 32 + l] == qh[half * 32 + l]
  {
    hide SixBits, Nibbles, TopPair, UnpackSix, PackLow, PackHigh;
    UnpackedQuad(ql, qh, half, l);
    PackedQuad(UnpackSix(ql, qh), half, l);
    ThreeUnpacked(ql[half * 64 + l], ql[half * 64 + 32 + l], qh[half * 32 + l]);
  }

  lemma QuadPackUnpack(v: seq<bv8>, half: nat, l: nat)
    requires AllBelow(v, 256, 64) && half < 2 && l < 32
    ensures var u, at := UnpackSix(PackLow(v), PackHigh(v)), half * 128 + l;
            u[at] == v[at] && u[at + 32] == v[at + 32] && u[at + 64] == v[at + 64] && u[at + 96] == v[at + 96]
  {
    hide SixBits, Nibbles, TopPair, UnpackSix, PackLow, PackHigh;
    PackedQuad(v, half, l);
    UnpackedQuad(PackLow(v), PackHigh(v), half, l);
    var at := half * 128 + l;
    FourPacked(v[at], v[at + 32], v[at + 64], v[at + 96]);
  }

  /** The 256 six-bit numbers of a Q6_K block and its 192 bytes determine each other. */
  lemma SixUnpackPack(ql: seq<bv8>, qh: seq<bv8>)
    requires |ql| == 128 && |qh| == 64
    ensures AllBelow(UnpackSix(ql, qh), 256, 64)
    ensures PackLow(UnpackSix(ql, qh)) == ql && PackHigh(UnpackSix(ql, qh)) == qh
  {
    hide UnpackSix, PackLow, PackHigh;
    var v := UnpackSix(ql, qh);
    forall i | 0 <= i < 256 ensures v[i] < 64 {
      QuadUnpackPack(ql, qh, i / 128, i % 32);
    }
    forall k | 0 <= k < 128 ensures PackLow(v)[k] == ql[k] {
      QuadUnpackPack(ql, qh, k / 64, k % 32);
    }
    forall k | 0 <= k < 64 ensures PackHigh(v)[k] == qh[k] {
      QuadUnpackPack(ql, qh, k / 32, k % 32);
    }
  }

  lemma SixPackUnpack(v: seq<bv8>)
    requires AllBelow(v, 256, 64)
    ensures UnpackSix(PackLow(v), PackHigh(v)) == v
  {
    hide UnpackSix, PackLow, PackHigh;
    forall i | 0 <= i < 256 ensures UnpackSix(PackLow(v), PackHigh(v))[i] == v[i] {
      QuadPackUnpack(v, i / 128, i % 32);
    }
  }

  // ---- Packing Q5_0 -------------------------------------------------------

  function UnpackFive(w: bv32, qs: seq<bv8>): (v: seq<bv8>)
    requires |qs| == 16
    ensures |v| == 32
  {
    seq(32, i requires 0 <= i < 32 => Five(w, qs, i))
  }

  function PackNibbles(v: seq<bv8>): (qs: seq<bv8>)
    requires |v| == 32
    ensures |qs| == 16
  {
    seq(16, j requires 0 <= j < 16 => Nibbles(v[j], v[j + 16]))
  }

  /** The high bits of the numbers from i on, number i's lowest. */
  function HighFrom(v: seq<bv8>, i: nat): bv32
    requires |v| == 32 && i <= 32
    decreases 32 - i
  {
    if i == 32 then 0 else PushBit(HighFrom(v, i + 1), HighBit(v[i]))
  }

  /** The bit above a number's nibble. */
  function HighBit(x: bv8): bv32 { (x >> 4) as bv32 }

  function PushBit(w: bv32, b: bv32): bv32 { (w << 1) | b }

  function DropBit(w: bv32): bv32 { w >> 1 }

  lemma FiveBitParts(nibble: bv8, bit: bv32)
    requires nibble < 16 && bit < 2
    ensures FiveBits(nibble, bit as bv8) < 32 && HighBit(FiveBits(nibble, bit as bv8)) == bit
    ensures FiveBits(nibble, bit as bv8) & 0x0f == nibble
  {}

  lemma FiveBitsBack(x: bv8)
    requires x < 32
    ensures HighBit(x) < 2 && FiveBits(x & 0x0f, HighBit(x) as bv8) == x
  {}

  lemma NibbleParts(a: bv8, b: bv8)
    ensures LowNibble(Nibbles(a, b)) == a & 0x0f && HighNibble(Nibbles(a, b)) == b & 0x0f
    ensures LowNibble(a) < 16 && HighNibble(a) < 16
  {}

  lemma NibblesBack(q: bv8, x: bv8, y: bv8)
    requires x & 0x0f == LowNibble(q) && y & 0x0f == HighNibble(q)
    ensures Nibbles(x, y) == q
  {}

  lemma ShiftNext(i: nat)
    requires i < 32
    ensures Shift(i + 1) == Shift(i) + 1
  {}

  lemma ShiftThenDrop(w: bv32, s: bv8)
    requires s < 32
    ensures DropBit(Shifted(w, s)) == Shifted(w, s + 1)
  {}

  lemma ShiftedEnds(w: bv32)
    ensures Shifted(w, 0) == w && Shifted(w, 32) == 0
  {}

  lemma FromEnds(w: bv32)
    ensures From(w, 0) == w && From(w, 32) == 0
  {
    ShiftedEnds(w);
    assert Shift(0) == 0 && Shift(32) == 32;
  }

  lemma FromNext(w: bv32, i: nat)
    requires i < 32
    ensures DropBit(From(w, i)) == From(w, i + 1)
  {
    ShiftNext(i);
    hide Shift, Shifted, DropBit;
    ShiftThenDrop(w, Shift(i));
  }

  lemma {:induction false} FromDropped(w: bv32, i: nat)
    requires i < 32
    ensures From(DropBit(w), i) == From(w, i + 1)
  {
    hide From, DropBit;
    FromNext(w, i);
    if i == 0 {
      FromEnds(w);
      FromEnds(DropBit(w));
    } else {
      FromDropped(w, i - 1);
      FromNext(DropBit(w), i - 1);
    }
  }

  lemma SplitLast(w: bv32)
    ensures w == PushBit(DropBit(w), LastBit(w))
  {}

  lemma DropZero()
    ensures DropBit(0) == 0
  {}

  lemma PushedParts(w: bv32, b: bv32)
    requires b < 2 && w >> 31 == 0
    ensures DropBit(PushBit(w, b)) == w && LastBit(PushBit(w, b)) == b
  {}

  lemma TopIs31(w: bv32)
    requires From(w, 31) == 0
    ensures w >> 31 == 0
  {
    assert Shift(31) == 31;
  }

  lemma PushedBit(w: bv32, b: bv32)
    requires b < 2 && From(w, 31) == 0
    ensures DropBit(PushBit(w, b)) == w && LastBit(PushBit(w, b)) == b
  {
    hide From, DropBit, PushBit, LastBit;
    TopIs31(w);
    PushedParts(w, b);
  }

  lemma {:induction false} StaysZero(w: bv32, i: nat, j: nat)
    requires i <= j <= 32 && From(w, i) == 0
    ensures From(w, j) == 0
    decreases j - i
  {
    hide From, DropBit;
    if i < j {
      FromNext(w, i);
      DropZero();
      StaysZero(w, i + 1, j);
    }
  }

  lemma FiveUnpacked(w: bv32, qs: seq<bv8>, i: nat)
    requires |qs| == 16 && i < 32
    ensures Five(w, qs, i) < 32 && HighBit(Five(w, qs, i)) == Bit(w, i) && Five(w, qs, i) & 0x0f == Nibble(qs, i)
  {
    hide From, LastBit, FiveBits, HighBit, LowNibble, HighNibble, Nibbles;
    NibbleParts(if i < 16 then qs[i] else qs[i - 16], 0);
    FiveBitParts(Nibble(qs, i), Bit(w, i));
  }

  lemma {:induction false} HighFromUnpacked(w: bv32, qs: seq<bv8>, i: nat)
    requires |qs| == 16 && i <= 32
    ensures HighFrom(UnpackFive(w, qs), i) == From(w, i)
    decreases 32 - i
  {
    hide PushBit, DropBit, LastBit, From, Five, HighBit;
    if i == 32 {
      FromEnds(w);
    } else {
      HighFromUnpacked(w, qs, i + 1);
      FiveUnpacked(w, qs, i);
      SplitLast(From(w, i));
      FromNext(w, i);
    }
  }

  /** The 32 five-bit numbers of a Q5_0 block and its high-bit word and nibble
      bytes determine each other. */
  lemma FiveUnpackPack(w: bv32, qs: seq<bv8>)
    requires |qs| == 16
    ensures AllBelow(UnpackFive(w, qs), 32, 32)
    ensures HighFrom(UnpackFive(w, qs), 0) == w && PackNibbles(UnpackFive(w, qs)) == qs
  {
    hide Bit, Five, From, HighBit, LowNibble, HighNibble, Nibbles, HighFrom;
    HighFromUnpacked(w, qs, 0);
    FromEnds(w);
    var v := UnpackFive(w, qs);
    forall i | 0 <= i < 32 ensures v[i] < 32 && v[i] & 0x0f == Nibble(qs, i) {
      FiveUnpacked(w, qs, i);
    }
    forall j | 0 <= j < 16 ensures PackNibbles(v)[j] == qs[j] {
      assert v[j] & 0x0f == Nibble(qs, j) && v[j + 16] & 0x0f == Nibble(qs, j + 16);
      NibblesBack(qs[j], v[j], v[j + 16]);
    }
  }

  /** The word from number i on has no bits beyond the last number's. */
  lemma {:induction false} HighFits(v: seq<bv8>, i: nat)
    requires AllBelow(v, 32, 32) && i <= 32
    ensures From(HighFrom(v, i), 32 - i) == 0
    decreases 32 - i
  {
    hide PushBit, DropBit, HighBit, From;
    if i == 32 {
      FromEnds(0);
    } else {
      HighFits(v, i + 1);
      FiveBitsBack(v[i]);
      var rest := HighFrom(v, i + 1);
      StaysZero(rest, 31 - i, 31);
      PushedBit(rest, HighBit(v[i]));
      FromDropped(HighFrom(v, i), 31 - i);
    }
  }

  lemma TakenApart(v: seq<bv8>, i: nat)
    requires AllBelow(v, 32, 32) && i < 32
    ensures DropBit(HighFrom(v, i)) == HighFrom(v, i + 1) && LastBit(HighFrom(v, i)) == HighBit(v[i])
  {
    hide PushBit, DropBit, LastBit, HighBit, From;
    HighFits(v, i + 1);
    StaysZero(HighFrom(v, i + 1), 31 - i, 31);
    FiveBitsBack(v[i]);
    PushedBit(HighFrom(v, i + 1), HighBit(v[i]));
  }

  lemma {:induction false} HighShifted(v: seq<bv8>, i: nat)
    requires AllBelow(v, 32, 32) && i <= 32
    ensures From(HighFrom(v, 0), i) == HighFrom(v, i)
  {
    hide From, DropBit, LastBit, HighFrom, HighBit;
    if i == 0 {
      FromEnds(HighFrom(v, 0));
    } else {
      HighShifted(v, i - 1);
      FromNext(HighFrom(v, 0), i - 1);
      TakenApart(v, i - 1);
    }
  }

  lemma FivePackUnpack(v: seq<bv8>)
    requires AllBelow(v, 32, 32)
    ensures UnpackFive(HighFrom(v, 0), PackNibbles(v)) == v
  {
    hide HighFrom, From, LastBit, HighBit, FiveBits, LowNibble, HighNibble, Nibbles;
    forall i | 0 <= i < 32 ensures Five(HighFrom(v, 0), PackNibbles(v), i) == v[i] {
      HighShifted(v, i);
      TakenApart(v, i);
      FiveBitsBack(v[i]);
      var j := if i < 16 then i else i - 16;
      NibbleParts(v[j], v[j + 16]);
    }
  }

  /** Byte k of a word. */
  function ByteOf(w: bv32, k: bv8): bv8
    requires k < 4
  {
    ((w >> (k << 3)) & 0xff) as bv8
  }

  /** The high-bit word and its four bytes determine each other. */
  lemma WordBytes(w: bv32)
    ensures HighWord(ByteOf(w, 0), ByteOf(w, 1), ByteOf(w, 2), ByteOf(w, 3)) == w
  {}

  lemma BytesOfWord(b0: bv8, b1: bv8, b2: bv8, b3: bv8)
    ensures var w := HighWord(b0, b1, b2, b3);
            ByteOf(w, 0) == b0 && ByteOf(w, 1) == b1 && ByteOf(w, 2) == b2 && ByteOf(w, 3) == b3
  {}
}
