/** What fs/gguf/gguf.go reads from a file that compatmigrate/writer.go wrote: the data
    section's start, from the header alone, and every tensor's bytes. */
module GgufReader {
  import opened Bytes
  import opened Results
  import opened GgufFormat
  import opened GgufLayout
  import opened GgufWriter

  // ---- The alignment ------------------------------------------------------

  /** The value of the first entry with this key. */
  function FirstValue(es: seq<Entry>, key: seq<byte>): Option<Value> {
    if es == [] then None
    else if es[0].key == key then Some(es[0].value)
    else FirstValue(es[1..], key)
  }

  const MAX_INT64 := 0x7FFF_FFFF_FFFF_FFFF

  predicate IsUnsigned(t: ScalarType) { t in {Uint8, Uint16, Uint32, Uint64} }

  predicate IsSigned(t: ScalarType) { t in {Int8, Int16, Int32, Int64} }

  /** A positive integer of any width; signed numbers are given by their bit patterns. */
  function Positive(v: Value): Option<nat> {
    if !v.Scalar? || v.bits == 0 then None
    else if IsUnsigned(v.t) && v.bits <= MAX_INT64 then Some(v.bits)
    else if IsSigned(v.t) && 2 * v.bits < Limit(Width(v.t)) then Some(v.bits)
    else None
  }

  /** The alignment that the reader finds; none if it refuses the file. */
  function ReadAlignment(es: seq<Entry>): Option<nat> {
    match FirstValue(es, ALIGNMENT)
    case None => Some(32)
    case Some(v) => Positive(v)
  }

  // ---- Whose value it is --------------------------------------------------

  const GENERAL_NAME: seq<byte> := [103, 101, 110, 101, 114, 97, 108]  // "general"
  const SHORT: seq<byte> := [97, 108, 105, 103, 110, 109, 101, 110, 116]  // "alignment"

  /** The architecture is "general", so that the key "alignment" is written as
      "general.alignment", before a key of that name. */
  predicate Shadowed(kv: Metadata) { Architecture(kv) == GENERAL_NAME && SHORT in kv }

  function Declared(kv: Metadata): Option<Value> {
    if Shadowed(kv) then Some(kv[SHORT])
    else if ALIGNMENT in kv then Some(kv[ALIGNMENT])
    else None
  }

  lemma {:induction false} FirstIs(es: seq<Entry>, key: seq<byte>, i: nat)
    requires i <= |es| && forall j | 0 <= j < i :: es[j].key != key
    requires i < |es| ==> es[i].key == key
    ensures FirstValue(es, key) == if i < |es| then Some(es[i].value) else None
    decreases i
  {
    if i > 0 {
      FirstIs(es[1..], key, i - 1);
    }
  }

  lemma Spelling()
    ensures |ALIGNMENT| == 17 && |GENERAL_NAME| == 7 && |SHORT| == 9
    ensures ALIGNMENT[..7] == GENERAL_NAME && ALIGNMENT[8..] == SHORT && ALIGNMENT[7] == 46
  {}

  lemma OneDot(k: nat)
    requires k < |ALIGNMENT| && ALIGNMENT[k] == 46
    ensures k == 7
  {}

  lemma AlignmentIsQualified(arch: seq<byte>)
    ensures Qualified(arch, ALIGNMENT)
  {
    assert ALIGNMENT[..8] == GENERAL;
  }

  lemma ShortIsFirst()
    ensures Less(SHORT, ALIGNMENT) && !Less(ALIGNMENT, SHORT)
  {
    assert SHORT[0] == 97 && ALIGNMENT[0] == 103;
  }

  lemma ShortIsUnqualified()
    ensures !Qualified(GENERAL_NAME, SHORT)
  {
    assert (GENERAL_NAME + DOT)[0] == 103 && GENERAL[0] == 103 && ADAPTER[1] == 100 && TOKENIZER[0] == 116;
  }

  /** The keys that are written as "general.alignment". */
  lemma WrittenAsAlignment(arch: seq<byte>, key: seq<byte>)
    ensures FullKey(arch, key) == ALIGNMENT <==> key == ALIGNMENT || (arch == GENERAL_NAME && key == SHORT)
  {
    Spelling();
    ShortIsUnqualified();
    AlignmentIsQualified(arch);
    hide Qualified;
    if FullKey(arch, key) == ALIGNMENT && !Qualified(arch, key) {
      var full := arch + DOT + key;
      assert full[|arch|] == 46;
      OneDot(|arch|);
      assert full[..7] == arch && full[8..] == key;
    }
    if arch == GENERAL_NAME && key == SHORT {
      assert ALIGNMENT == ALIGNMENT[..7] + [ALIGNMENT[7]] + ALIGNMENT[8..];
    }
  }

  /** The first entry for the alignment is the shadowing key's, or the key's own. */
  lemma DeclaredIsFirst(kv: Metadata)
    ensures FirstValue(EntriesOf(kv), ALIGNMENT) == Declared(kv)
  {
    hide FullKey, Less, SortedKeys, FirstValue, Architecture;
    var arch, keys, es := Architecture(kv), SortedKeys(kv.Keys), EntriesOf(kv);
    SortedKeysAre(kv.Keys);
    forall j | 0 <= j < |es|
      ensures es[j].key == ALIGNMENT <==> keys[j] == ALIGNMENT || (arch == GENERAL_NAME && keys[j] == SHORT)
    {
      WrittenAsAlignment(arch, keys[j]);
    }
    if Shadowed(kv) {
      var i :| 0 <= i < |keys| && keys[i] == SHORT;
      ShortIsFirst();
      forall j | 0 <= j < i ensures es[j].key != ALIGNMENT { LessTotal(SHORT, SHORT); }
      FirstIs(es, ALIGNMENT, i);
    } else if ALIGNMENT in kv {
      var i :| 0 <= i < |keys| && keys[i] == ALIGNMENT;
      forall j | 0 <= j < i ensures es[j].key != ALIGNMENT {
        LessTotal(ALIGNMENT, ALIGNMENT);
        assert keys[j] in kv;
      }
      FirstIs(es, ALIGNMENT, i);
    } else {
      forall j | 0 <= j < |es| ensures es[j].key != ALIGNMENT { assert keys[j] in kv; }
      FirstIs(es, ALIGNMENT, |es|);
    }
  }

  /** What a caller can check: the alignment is missing, a 32-bit or 64-bit unsigned number,
      or 32 in some other type, which the writer takes anyway; or it is shadowed by a key
      with the same value. */
  predicate AlignmentSafe(kv: Metadata) {
    if Shadowed(kv) then Positive(kv[SHORT]) == Some(Alignment(kv))
    else if ALIGNMENT !in kv then true
    else
      var v := kv[ALIGNMENT];
      v.Scalar? && if v.t in {Uint32, Uint64} then 0 < v.bits <= MAX_INT64 else Positive(v) == Some(32)
  }

  /** The reader uses the alignment that was written with exactly in those cases. */
  lemma AlignmentReadIff(kv: Metadata)
    ensures ReadAlignment(EntriesOf(kv)) == Some(Alignment(kv)) <==> AlignmentSafe(kv)
  {
    hide EntriesOf, FirstValue, Limit, Architecture;
    DeclaredIsFirst(kv);
  }

  /** A signed alignment: the writer aligns to 32, the reader to 64. */
  const SIGNED: Metadata := map[ARCHITECTURE := Str([97]), ALIGNMENT := Scalar(Int32, 64)]

  lemma SignedAlignment()
    ensures Architecture(SIGNED) != [] && forall k | k in SIGNED :: Supported(SIGNED[k])
    ensures Alignment(SIGNED) == 32 && ReadAlignment(EntriesOf(SIGNED)) == Some(64)
  {
    hide EntriesOf, FirstValue;
    assert |ARCHITECTURE| == 20 && |ALIGNMENT| == 17 && |SHORT| == 9;
    assert Architecture(SIGNED) == [97] && |GENERAL_NAME| == 7;
    DeclaredIsFirst(SIGNED);
    assert Limit(4) == 0x1_0000_0000 by { assert Limit(1) == 256 && Limit(2) == 65536 && Limit(3) == 16777216; }
  }

  // ---- The tensors --------------------------------------------------------

  /** A file whose header has been read: where its data section starts. */
  datatype Opened = Opened(header: Header, start: nat)

  function Open(file: seq<byte>): Option<Opened> {
    match ReadHeader(file)
    case NoParse => None
    case Parsed(header, rest) =>
      match ReadAlignment(header.entries)
      case None => None
      case Some(align) =>
        if align == 0 || |rest| > |file| then None
        else Some(Opened(header, DataStart(|file| - |rest|, align)))
  }

  /** The bytes of a tensor whose kind and shape make this size; an empty one is refused. */
  function TensorBytes(file: seq<byte>, f: Opened, info: TensorInfo, size: nat): Option<seq<byte>> {
    var at := f.start + info.offset;
    if size == 0 || at + size > |file| then None else Some(file[at..at + size])
  }

  /** A file as the writer leaves it. */
  ghost predicate Written(kv: Metadata, ts: seq<OutTensor>, file: seq<byte>) {
    WithinLimits(kv, ts) && HeaderOf(kv, ts) <= file &&
    HoldsPayloads(file, DataStart(|HeaderOf(kv, ts)|, Alignment(kv)), StableSort(ts), Alignment(kv), |StableSort(ts)|)
  }

  lemma OpenIs(file: seq<byte>, prefix: seq<byte>, header: Header, align: nat)
    requires prefix <= file && ReadHeader(file) == Parsed(header, file[|prefix|..])
    requires ReadAlignment(header.entries) == Some(align) && align > 0
    ensures Open(file) == Some(Opened(header, DataStart(|prefix|, align)))
  {
    hide ReadHeader, ReadAlignment, Padding;
    assert |file| - |file[|prefix|..]| == |prefix|;
  }

  lemma OpenWritten(kv: Metadata, ts: seq<OutTensor>, file: seq<byte>)
    requires Written(kv, ts, file) && AlignmentSafe(kv)
    ensures var infos := InfosFor(StableSort(ts), Alignment(kv));
            Open(file) == Some(Opened(Header(EntriesOf(kv), infos), DataStart(|HeaderOf(kv, ts)|, Alignment(kv))))
  {
    WrittenParts(kv, ts, file);
    hide *;
    AlignmentReadIff(kv);
    FileRoundTrip(kv, ts, file);
    OpenIs(file, HeaderOf(kv, ts), Header(EntriesOf(kv), InfosFor(StableSort(ts), Alignment(kv))), Alignment(kv));
  }

  lemma WrittenParts(kv: Metadata, ts: seq<OutTensor>, file: seq<byte>)
    requires Written(kv, ts, file)
    ensures Alignment(kv) > 0 && WithinLimits(kv, ts) && HeaderOf(kv, ts) <= file
  {}

  lemma BytesHeld(file: seq<byte>, f: Opened, info: TensorInfo, payload: seq<byte>)
    requires payload != [] && Holds(file, f.start + info.offset, payload)
    ensures TensorBytes(file, f, info, |payload|) == Some(payload)
  {}

  /** Where the writer put the payload of a sorted tensor. */
  lemma PayloadHeld(kv: Metadata, ts: seq<OutTensor>, file: seq<byte>, k: nat)
    requires Written(kv, ts, file) && k < |StableSort(ts)|
    ensures var info := InfosFor(StableSort(ts), Alignment(kv))[k];
            Holds(file, DataStart(|HeaderOf(kv, ts)|, Alignment(kv)) + info.offset, StableSort(ts)[k].payload)
  {
    hide StableSort, HeaderOf, OffsetOf, DataStart, Alignment, Holds;
  }

  /** Reading a written file by its own header returns the bytes of every tensor that is
      not empty, for any function that gives the size of a kind and shape. */
  lemma TensorsReadBack(kv: Metadata, ts: seq<OutTensor>, file: seq<byte>, size: (nat, seq<nat>) -> nat, k: nat)
    requires Written(kv, ts, file) && AlignmentSafe(kv) && k < |StableSort(ts)|
    requires var t := StableSort(ts)[k]; 0 < size(t.kind, t.shape) == |t.payload|
    ensures Open(file).Some? && k < |Open(file).value.header.infos|
    ensures var info, t := Open(file).value.header.infos[k], StableSort(ts)[k];
            info.name == t.name && info.kind == t.kind && info.shape == t.shape &&
            TensorBytes(file, Open(file).value, info, size(info.kind, info.shape)) == Some(t.payload)
  {
    assert Alignment(kv) > 0;
    OpenWritten(kv, ts, file);
    PayloadHeld(kv, ts, file, k);
    hide Written, Open, EntriesOf, StableSort, HeaderOf, AlignmentSafe, Alignment, OffsetOf, DataStart, Holds,
         TensorBytes;
    BytesHeld(file, Open(file).value, Open(file).value.header.infos[k], StableSort(ts)[k].payload);
  }
}
