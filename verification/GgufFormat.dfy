/** The GGUF header: what compatmigrate/writer.go prints, and a parser written
    from the GGUF specification (ggml docs/gguf.md, section "File Structure"). */
module GgufFormat {
  import opened Bytes
  import opened Results

  // ---- Little-endian numbers ----------------------------------------------

  function Limit(w: nat): nat {
    if w == 0 then 1 else 256 * Limit(w - 1)
  }

  function LE(n: nat, w: nat): (bs: seq<byte>)
    ensures |bs| == w
  {
    if w == 0 then [] else [n % 256] + LE(n / 256, w - 1)
  }

  function FromLE(bs: seq<byte>): nat {
    if bs == [] then 0 else bs[0] + 256 * FromLE(bs[1..])
  }

  lemma {:induction false} LERoundTrip(n: nat, w: nat)
    requires n < Limit(w)
    ensures FromLE(LE(n, w)) == n
  {
    if w > 0 {
      LERoundTrip(n / 256, w - 1);
      assert LE(n, w)[1..] == LE(n / 256, w - 1);
    }
  }

  // ---- Metadata values ----------------------------------------------------

  datatype ScalarType = Uint8 | Int8 | Uint16 | Int16 | Uint32 | Int32 | Float32 | Bool | Uint64 | Int64 | Float64

  function Code(t: ScalarType): nat {
    match t
    case Uint8 => 0 case Int8 => 1 case Uint16 => 2 case Int16 => 3 case Uint32 => 4 case Int32 => 5
    case Float32 => 6 case Bool => 7 case Uint64 => 10 case Int64 => 11 case Float64 => 12
  }

  const STRING_CODE := 8
  const ARRAY_CODE := 9

  function Width(t: ScalarType): nat {
    match t
    case Uint8 | Int8 | Bool => 1
    case Uint16 | Int16 => 2
    case Uint32 | Int32 | Float32 => 4
    case Uint64 | Int64 | Float64 => 8
  }

  /** A metadata value. Numbers are their bit patterns, read as unsigned; Other
      stands for the dynamic types that writeKV has no case for. */
  datatype Value =
    | Scalar(t: ScalarType, bits: nat)
    | Str(text: seq<byte>)
    | Array(t: ScalarType, elems: seq<nat>)
    | StrArray(texts: seq<seq<byte>>)
    | Other

  /** The dynamic types writeKV prints. */
  predicate Supported(v: Value) {
    match v
    case Scalar(t, _) => t in {Int32, Int64, Uint32, Uint64, Float32, Float64, Bool}
    case Str(_) => true
    case Array(t, _) => t in {Int8, Uint8, Int32, Int64, Uint32, Uint64, Float32, Bool}
    case StrArray(_) => true
    case Other => false
  }

  /** What the value's Go type guarantees: bit patterns and lengths fit. */
  ghost predicate Typed(v: Value) {
    match v
    case Scalar(t, bits) => bits < Limit(Width(t))
    case Str(s) => |s| < Limit(8)
    case Array(t, es) => |es| < Limit(8) && forall k | 0 <= k < |es| :: es[k] < Limit(Width(t))
    case StrArray(ss) => |ss| < Limit(8) && forall k | 0 <= k < |ss| :: |ss[k]| < Limit(8)
    case Other => true
  }

  function Text(s: seq<byte>): seq<byte> { LE(|s|, 8) + s }

  function Elems(es: seq<nat>, w: nat): seq<byte> {
    if es == [] then [] else LE(es[0], w) + Elems(es[1..], w)
  }

  function Texts(ss: seq<seq<byte>>): seq<byte> {
    if ss == [] then [] else Text(ss[0]) + Texts(ss[1..])
  }

  /** The bytes after the key, for a supported value. */
  function ValueBytes(v: Value): seq<byte> {
    match v
    case Scalar(t, bits) => LE(Code(t), 4) + LE(bits, Width(t))
    case Str(s) => LE(STRING_CODE, 4) + Text(s)
    case Array(t, es) => LE(ARRAY_CODE, 4) + LE(Code(t), 4) + LE(|es|, 8) + Elems(es, Width(t))
    case StrArray(ss) => LE(ARRAY_CODE, 4) + LE(STRING_CODE, 4) + LE(|ss|, 8) + Texts(ss)
    case Other => []
  }

  // ---- Header entries -----------------------------------------------------

  datatype Entry = Entry(key: seq<byte>, value: Value)

  datatype TensorInfo = TensorInfo(name: seq<byte>, shape: seq<nat>, kind: nat, offset: nat)

  ghost predicate TypedEntry(e: Entry) {
    |e.key| < Limit(8) && Typed(e.value) && Supported(e.value)
  }

  ghost predicate TypedInfo(t: TensorInfo) {
    && |t.name| < Limit(8) && |t.shape| < Limit(4) && t.kind < Limit(4) && t.offset < Limit(8)
    && forall k | 0 <= k < |t.shape| :: t.shape[k] < Limit(8)
  }

  function EntryBytes(e: Entry): seq<byte> { Text(e.key) + ValueBytes(e.value) }

  function InfoBytes(t: TensorInfo): seq<byte> {
    Text(t.name) + LE(|t.shape|, 4) + Elems(t.shape, 8) + LE(t.kind, 4) + LE(t.offset, 8)
  }

  function Entries(es: seq<Entry>): seq<byte> {
    if es == [] then [] else EntryBytes(es[0]) + Entries(es[1..])
  }

  function Infos(ts: seq<TensorInfo>): seq<byte> {
    if ts == [] then [] else InfoBytes(ts[0]) + Infos(ts[1..])
  }

  const MAGIC: seq<byte> := [71, 71, 85, 70]  // "GGUF"
  const VERSION := 3

  function Preamble(tensors: nat, entries: nat): seq<byte> {
    MAGIC + LE(VERSION, 4) + LE(tensors, 8) + LE(entries, 8)
  }

  function HeaderBytes(es: seq<Entry>, ts: seq<TensorInfo>): seq<byte> {
    Preamble(|ts|, |es|) + Entries(es) + Infos(ts)
  }

  // ---- The parser ---------------------------------------------------------

  /** A parsed value and the bytes after it. */
  datatype Parsed<+T> = NoParse | Parsed(value: T, rest: seq<byte>) {
    predicate IsFailure() { NoParse? }
    function PropagateFailure<U>(): Parsed<U>
      requires NoParse?
    {
      NoParse
    }
    function Extract(): (T, seq<byte>)
      requires Parsed?
    {
      (value, rest)
    }
  }

  function ReadNumber(bs: seq<byte>, w: nat): Parsed<nat> {
    if |bs| < w then NoParse else Parsed(FromLE(bs[..w]), bs[w..])
  }

  function ReadText(bs: seq<byte>): Parsed<seq<byte>> {
    var (n, rest) :- ReadNumber(bs, 8);
    if |rest| < n then NoParse else Parsed(rest[..n], rest[n..])
  }

  function ScalarOf(code: nat): Option<ScalarType> {
    match code
    case 0 => Some(Uint8) case 1 => Some(Int8) case 2 => Some(Uint16) case 3 => Some(Int16)
    case 4 => Some(Uint32) case 5 => Some(Int32) case 6 => Some(Float32) case 7 => Some(Bool)
    case 10 => Some(Uint64) case 11 => Some(Int64) case 12 => Some(Float64)
    case _ => None
  }

  function ReadNumbers(bs: seq<byte>, w: nat, n: nat): Parsed<seq<nat>>
    decreases n
  {
    if n == 0 then Parsed([], bs)
    else
      var (x, rest) :- ReadNumber(bs, w);
      var (xs, rest') :- ReadNumbers(rest, w, n - 1);
      Parsed([x] + xs, rest')
  }

  function ReadTexts(bs: seq<byte>, n: nat): Parsed<seq<seq<byte>>>
    decreases n
  {
    if n == 0 then Parsed([], bs)
    else
      var (x, rest) :- ReadText(bs);
      var (xs, rest') :- ReadTexts(rest, n - 1);
      Parsed([x] + xs, rest')
  }

  function ReadArray(bs: seq<byte>): Parsed<Value> {
    var (code, rest) :- ReadNumber(bs, 4);
    var (n, rest') :- ReadNumber(rest, 8);
    if code == STRING_CODE then
      var (ss, end) :- ReadTexts(rest', n);
      Parsed(StrArray(ss), end)
    else
      match ScalarOf(code)
      case None => NoParse
      case Some(t) =>
        var (es, end) :- ReadNumbers(rest', Width(t), n);
        Parsed(Array(t, es), end)
  }

  function ReadValue(bs: seq<byte>): Parsed<Value> {
    var (code, rest) :- ReadNumber(bs, 4);
    if code == STRING_CODE then
      var (s, end) :- ReadText(rest);
      Parsed(Str(s), end)
    else if code == ARRAY_CODE then ReadArray(rest)
    else
      match ScalarOf(code)
      case None => NoParse
      case Some(t) =>
        var (bits, end) :- ReadNumber(rest, Width(t));
        Parsed(Scalar(t, bits), end)
  }

  function ReadEntry(bs: seq<byte>): Parsed<Entry> {
    var (key, rest) :- ReadText(bs);
    var (v, rest') :- ReadValue(rest);
    Parsed(Entry(key, v), rest')
  }

  function ReadEntries(bs: seq<byte>, n: nat): Parsed<seq<Entry>>
    decreases n
  {
    if n == 0 then Parsed([], bs)
    else
      var (x, rest) :- ReadEntry(bs);
      var (xs, rest') :- ReadEntries(rest, n - 1);
      Parsed([x] + xs, rest')
  }

  function ReadInfo(bs: seq<byte>): Parsed<TensorInfo> {
    var (name, r1) :- ReadText(bs);
    var (dims, r2) :- ReadNumber(r1, 4);
    var (shape, r3) :- ReadNumbers(r2, 8, dims);
    var (kind, r4) :- ReadNumber(r3, 4);
    var (offset, r5) :- ReadNumber(r4, 8);
    Parsed(TensorInfo(name, shape, kind, offset), r5)
  }

  function ReadInfos(bs: seq<byte>, n: nat): Parsed<seq<TensorInfo>>
    decreases n
  {
    if n == 0 then Parsed([], bs)
    else
      var (x, rest) :- ReadInfo(bs);
      var (xs, rest') :- ReadInfos(rest, n - 1);
      Parsed([x] + xs, rest')
  }

  datatype Header = Header(entries: seq<Entry>, infos: seq<TensorInfo>)

  function ReadHeader(bs: seq<byte>): Parsed<Header> {
    if |bs| < 4 || bs[..4] != MAGIC then NoParse
    else
      var (version, r1) :- ReadNumber(bs[4..], 4);
      if version != VERSION then NoParse
      else
        var (tensors, r2) :- ReadNumber(r1, 8);
        var (entries, r3) :- ReadNumber(r2, 8);
        var (es, r4) :- ReadEntries(r3, entries);
        var (ts, r5) :- ReadInfos(r4, tensors);
        Parsed(Header(es, ts), r5)
  }

  // ---- Parsing what was printed -------------------------------------------

  lemma NumberRoundTrip(n: nat, w: nat, rest: seq<byte>)
    requires n < Limit(w)
    ensures ReadNumber(LE(n, w) + rest, w) == Parsed(n, rest)
  {
    LERoundTrip(n, w);
    assert (LE(n, w) + rest)[..w] == LE(n, w) && (LE(n, w) + rest)[w..] == rest;
  }

  lemma TextRoundTrip(s: seq<byte>, rest: seq<byte>)
    requires |s| < Limit(8)
    ensures ReadText(Text(s) + rest) == Parsed(s, rest)
  {
    hide LE, ReadNumber, Limit;
    assert Text(s) + rest == LE(|s|, 8) + (s + rest);
    NumberRoundTrip(|s|, 8, s + rest);
    assert (s + rest)[..|s|] == s && (s + rest)[|s|..] == rest;
  }

  lemma {:induction false} NumbersRoundTrip(es: seq<nat>, w: nat, rest: seq<byte>)
    requires forall k | 0 <= k < |es| :: es[k] < Limit(w)
    ensures ReadNumbers(Elems(es, w) + rest, w, |es|) == Parsed(es, rest)
    decreases |es|
  {
    hide LE, ReadNumber, Limit;
    if es == [] {
      assert Elems(es, w) + rest == rest;
    } else {
      assert Elems(es, w) + rest == LE(es[0], w) + (Elems(es[1..], w) + rest);
      NumberRoundTrip(es[0], w, Elems(es[1..], w) + rest);
      NumbersRoundTrip(es[1..], w, rest);
      assert [es[0]] + es[1..] == es;
    }
  }

  lemma {:induction false} TextsRoundTrip(ss: seq<seq<byte>>, rest: seq<byte>)
    requires forall k | 0 <= k < |ss| :: |ss[k]| < Limit(8)
    ensures ReadTexts(Texts(ss) + rest, |ss|) == Parsed(ss, rest)
    decreases |ss|
  {
    hide Text, ReadText, Limit;
    if ss == [] {
      assert Texts(ss) + rest == rest;
    } else {
      assert Texts(ss) + rest == Text(ss[0]) + (Texts(ss[1..]) + rest);
      TextRoundTrip(ss[0], Texts(ss[1..]) + rest);
      TextsRoundTrip(ss[1..], rest);
      assert [ss[0]] + ss[1..] == ss;
    }
  }

  lemma CodeRoundTrip(t: ScalarType)
    ensures ScalarOf(Code(t)) == Some(t) && Code(t) != STRING_CODE && Code(t) != ARRAY_CODE && Code(t) < Limit(4)
    ensures STRING_CODE < Limit(4) && ARRAY_CODE < Limit(4) && VERSION < Limit(4)
  {
    assert Limit(4) == 256 * Limit(3) && Limit(3) == 256 * Limit(2) && Limit(2) == 256 * Limit(1);
  }

  lemma ArrayRoundTrip(t: ScalarType, es: seq<nat>, rest: seq<byte>)
    requires Typed(Array(t, es))
    ensures ReadArray(LE(Code(t), 4) + LE(|es|, 8) + Elems(es, Width(t)) + rest) == Parsed(Array(t, es), rest)
  {
    hide LE, ReadNumber, ReadNumbers, Elems, Limit, Code, Width, ScalarOf;
    CodeRoundTrip(t);
    var tail := Elems(es, Width(t)) + rest;
    assert LE(Code(t), 4) + LE(|es|, 8) + Elems(es, Width(t)) + rest == LE(Code(t), 4) + (LE(|es|, 8) + tail);
    NumberRoundTrip(Code(t), 4, LE(|es|, 8) + tail);
    NumberRoundTrip(|es|, 8, tail);
    NumbersRoundTrip(es, Width(t), rest);
  }

  lemma StrArrayRoundTrip(ss: seq<seq<byte>>, rest: seq<byte>)
    requires Typed(StrArray(ss))
    ensures ReadArray(LE(STRING_CODE, 4) + LE(|ss|, 8) + Texts(ss) + rest) == Parsed(StrArray(ss), rest)
  {
    hide LE, ReadNumber, ReadTexts, Texts, Limit;
    CodeRoundTrip(Uint8);
    var tail := Texts(ss) + rest;
    assert LE(STRING_CODE, 4) + LE(|ss|, 8) + Texts(ss) + rest == LE(STRING_CODE, 4) + (LE(|ss|, 8) + tail);
    NumberRoundTrip(STRING_CODE, 4, LE(|ss|, 8) + tail);
    NumberRoundTrip(|ss|, 8, tail);
    TextsRoundTrip(ss, rest);
  }

  /** Every value that writeKV prints parses back to itself. */
  lemma ValueRoundTrip(v: Value, rest: seq<byte>)
    requires Supported(v) && Typed(v)
    ensures ReadValue(ValueBytes(v) + rest) == Parsed(v, rest)
  {
    hide LE, ReadNumber, ReadText, ReadArray, Text, Texts, Elems, Limit, Code, Width, ScalarOf;
    CodeRoundTrip(Uint8);
    match v
    case Scalar(t, bits) =>
      CodeRoundTrip(t);
      assert ValueBytes(v) + rest == LE(Code(t), 4) + (LE(bits, Width(t)) + rest);
      NumberRoundTrip(Code(t), 4, LE(bits, Width(t)) + rest);
      NumberRoundTrip(bits, Width(t), rest);
    case Str(s) =>
      assert ValueBytes(v) + rest == LE(STRING_CODE, 4) + (Text(s) + rest);
      NumberRoundTrip(STRING_CODE, 4, Text(s) + rest);
      TextRoundTrip(s, rest);
    case Array(t, es) =>
      var tail := LE(Code(t), 4) + LE(|es|, 8) + Elems(es, Width(t)) + rest;
      assert ValueBytes(v) + rest == LE(ARRAY_CODE, 4) + tail;
      NumberRoundTrip(ARRAY_CODE, 4, tail);
      ArrayRoundTrip(t, es, rest);
    case StrArray(ss) =>
      var tail := LE(STRING_CODE, 4) + LE(|ss|, 8) + Texts(ss) + rest;
      assert ValueBytes(v) + rest == LE(ARRAY_CODE, 4) + tail;
      NumberRoundTrip(ARRAY_CODE, 4, tail);
      StrArrayRoundTrip(ss, rest);
  }

  lemma EntryRoundTrip(e: Entry, rest: seq<byte>)
    requires TypedEntry(e)
    ensures ReadEntry(EntryBytes(e) + rest) == Parsed(e, rest)
  {
    hide Text, ReadText, ValueBytes, ReadValue, Limit;
    assert EntryBytes(e) + rest == Text(e.key) + (ValueBytes(e.value) + rest);
    TextRoundTrip(e.key, ValueBytes(e.value) + rest);
    ValueRoundTrip(e.value, rest);
  }

  lemma {:induction false} EntriesRoundTrip(es: seq<Entry>, rest: seq<byte>)
    requires forall k | 0 <= k < |es| :: TypedEntry(es[k])
    ensures ReadEntries(Entries(es) + rest, |es|) == Parsed(es, rest)
    decreases |es|
  {
    hide EntryBytes, ReadEntry, TypedEntry;
    if es == [] {
      assert Entries(es) + rest == rest;
    } else {
      assert Entries(es) + rest == EntryBytes(es[0]) + (Entries(es[1..]) + rest);
      EntryRoundTrip(es[0], Entries(es[1..]) + rest);
      EntriesRoundTrip(es[1..], rest);
      assert [es[0]] + es[1..] == es;
    }
  }

  lemma InfoRoundTrip(t: TensorInfo, rest: seq<byte>)
    requires TypedInfo(t)
    ensures ReadInfo(InfoBytes(t) + rest) == Parsed(t, rest)
  {
    hide Text, ReadText, LE, ReadNumber, Elems, ReadNumbers, Limit;
    var r4 := LE(t.offset, 8) + rest;
    var r3 := LE(t.kind, 4) + r4;
    var r2 := Elems(t.shape, 8) + r3;
    var r1 := LE(|t.shape|, 4) + r2;
    assert InfoBytes(t) + rest == Text(t.name) + r1;
    TextRoundTrip(t.name, r1);
    NumberRoundTrip(|t.shape|, 4, r2);
    NumbersRoundTrip(t.shape, 8, r3);
    NumberRoundTrip(t.kind, 4, r4);
    NumberRoundTrip(t.offset, 8, rest);
  }

  lemma {:induction false} InfosRoundTrip(ts: seq<TensorInfo>, rest: seq<byte>)
    requires forall k | 0 <= k < |ts| :: TypedInfo(ts[k])
    ensures ReadInfos(Infos(ts) + rest, |ts|) == Parsed(ts, rest)
    decreases |ts|
  {
    hide InfoBytes, ReadInfo, TypedInfo;
    if ts == [] {
      assert Infos(ts) + rest == rest;
    } else {
      assert Infos(ts) + rest == InfoBytes(ts[0]) + (Infos(ts[1..]) + rest);
      InfoRoundTrip(ts[0], Infos(ts[1..]) + rest);
      InfosRoundTrip(ts[1..], rest);
      assert [ts[0]] + ts[1..] == ts;
    }
  }

  /** Parsing a printed header gives back its entries and tensor infos, and stops
      exactly where it ends. */
  lemma HeaderRoundTrip(es: seq<Entry>, ts: seq<TensorInfo>, rest: seq<byte>)
    requires |es| < Limit(8) && |ts| < Limit(8)
    requires forall k | 0 <= k < |es| :: TypedEntry(es[k])
    requires forall k | 0 <= k < |ts| :: TypedInfo(ts[k])
    ensures ReadHeader(HeaderBytes(es, ts) + rest) == Parsed(Header(es, ts), rest)
  {
    hide LE, ReadNumber, Entries, ReadEntries, Infos, ReadInfos, Limit, TypedEntry, TypedInfo;
    var r4 := Infos(ts) + rest;
    var r3 := Entries(es) + r4;
    var r2 := LE(|es|, 8) + r3;
    var r1 := LE(|ts|, 8) + r2;
    var all := HeaderBytes(es, ts) + rest;
    assert all == MAGIC + (LE(VERSION, 4) + r1);
    assert all[..4] == MAGIC && all[4..] == LE(VERSION, 4) + r1;
    CodeRoundTrip(Uint8);
    NumberRoundTrip(VERSION, 4, r1);
    NumberRoundTrip(|ts|, 8, r2);
    NumberRoundTrip(|es|, 8, r3);
    EntriesRoundTrip(es, r4);
    InfosRoundTrip(ts, rest);
  }
}
