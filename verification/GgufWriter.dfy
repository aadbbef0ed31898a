/** writeGGUF of compatmigrate/writer.go: the calls that write the file, and what
    a reader finds in it. */
module GgufWriter {
  import opened Bytes
  import opened Results
  import opened GgufFormat
  import opened GgufLayout

  type Metadata = map<seq<byte>, Value>

  datatype WriteError = NoArchitecture | ImproperType(key: seq<byte>)

  // "general.architecture" and "general.alignment"
  const ARCHITECTURE: seq<byte> :=
    [103, 101, 110, 101, 114, 97, 108, 46, 97, 114, 99, 104, 105, 116, 101, 99, 116, 117, 114, 101]
  const ALIGNMENT: seq<byte> :=
    [103, 101, 110, 101, 114, 97, 108, 46, 97, 108, 105, 103, 110, 109, 101, 110, 116]
  const GENERAL: seq<byte> := [103, 101, 110, 101, 114, 97, 108, 46]  // "general."
  const ADAPTER: seq<byte> := [97, 100, 97, 112, 116, 101, 114, 46]  // "adapter."
  const TOKENIZER: seq<byte> := [116, 111, 107, 101, 110, 105, 122, 101, 114, 46]  // "tokenizer."
  const DOT: seq<byte> := [46]

  /** kv.String("general.architecture"): empty when missing or not a string. */
  function Architecture(kv: Metadata): seq<byte> {
    if ARCHITECTURE in kv && kv[ARCHITECTURE].Str? then kv[ARCHITECTURE].text else []
  }

  /** kv.Uint("general.alignment", 32). */
  function Alignment(kv: Metadata): nat {
    if ALIGNMENT in kv && kv[ALIGNMENT].Scalar? && kv[ALIGNMENT].t in {Uint32, Uint64} then kv[ALIGNMENT].bits else 32
  }

  predicate Qualified(arch: seq<byte>, key: seq<byte>) {
    arch + DOT <= key || GENERAL <= key || ADAPTER <= key || TOKENIZER <= key
  }

  /** Keys outside the known namespaces get the architecture's prefix. */
  function FullKey(arch: seq<byte>, key: seq<byte>): seq<byte> {
    if Qualified(arch, key) then key else arch + DOT + key
  }

  function EntriesFor(arch: seq<byte>, kv: Metadata, keys: seq<seq<byte>>): (es: seq<Entry>)
    requires forall k | k in keys :: k in kv
    ensures |es| == |keys| && forall k | 0 <= k < |es| :: es[k] == Entry(FullKey(arch, keys[k]), kv[keys[k]])
  {
    seq(|keys|, k requires 0 <= k < |keys| => Entry(FullKey(arch, keys[k]), kv[keys[k]]))
  }

  function Sizes(ts: seq<OutTensor>): (r: seq<nat>)
    ensures |r| == |ts| && forall k | 0 <= k < |r| :: r[k] == |ts[k].payload|
  {
    seq(|ts|, k requires 0 <= k < |ts| => |ts[k].payload|)
  }

  function InfosFor(ts: seq<OutTensor>, align: nat): (infos: seq<TensorInfo>)
    requires align > 0
    ensures |infos| == |ts| && forall k | 0 <= k < |infos| ::
              infos[k] == TensorInfo(ts[k].name, ts[k].shape, ts[k].kind, OffsetOf(Sizes(ts), align, k))
  {
    seq(|ts|, k requires 0 <= k < |ts| => TensorInfo(ts[k].name, ts[k].shape, ts[k].kind,
      OffsetOf(Sizes(ts), align, k)))
  }

  ghost function EntriesOf(kv: Metadata): seq<Entry> {
    SortedKeysAre(kv.Keys);
    EntriesFor(Architecture(kv), kv, SortedKeys(kv.Keys))
  }

  /** The whole header for this metadata and these tensors. */
  ghost function HeaderOf(kv: Metadata, ts: seq<OutTensor>): seq<byte>
    requires Alignment(kv) > 0
  {
    HeaderBytes(EntriesOf(kv), InfosFor(StableSort(ts), Alignment(kv)))
  }

  function DataStart(header: nat, align: nat): nat
    requires align > 0
  {
    header + Padding(header, align)
  }

  /** The file holds these bytes at this position (nothing to hold if empty). */
  ghost predicate Holds(data: seq<byte>, at: nat, bs: seq<byte>) {
    bs == [] || (at + |bs| <= |data| && data[at..at + |bs|] == bs)
  }

  /** The first n tensors' payloads stand at their offsets behind the header. */
  ghost predicate HoldsPayloads(data: seq<byte>, start: nat, ts: seq<OutTensor>, align: nat, n: nat)
    requires align > 0 && n <= |ts|
  {
    forall k | 0 <= k < n :: Holds(data, start + OffsetOf(Sizes(ts), align, k), ts[k].payload)
  }

  function Zeros(n: nat): seq<byte> { seq(n, _ => 0) }

  /** A file being written: sequential writes go to its end, and an offset writer
      fills any gap it leaves with zeros. */
  class File {
    var data: seq<byte>

    constructor ()
      ensures data == []
    {
      data := [];
    }

    method Write(bs: seq<byte>)
      modifies this
      ensures data == old(data) + bs
    {
      data := data + bs;
    }

    method WriteAt(at: nat, bs: seq<byte>)
      requires at >= |data|
      modifies this
      ensures bs == [] ==> data == old(data)
      ensures bs != [] ==> data == old(data) + Zeros(at - |old(data)|) + bs
    {
      if bs != [] {
        data := data + Zeros(at - |data|) + bs;
      }
    }
  }

  method WriteKV(f: File, arch: seq<byte>, key: seq<byte>, v: Value) returns (r: Option<WriteError>)
    modifies f
    ensures r.None? <==> Supported(v)
    ensures r.Some? ==> r.value == ImproperType(FullKey(arch, key)) && f.data == old(f.data) + Text(FullKey(arch, key))
    ensures r.None? ==> f.data == old(f.data) + EntryBytes(Entry(FullKey(arch, key), v))
  {
    hide LE, ValueBytes, Supported;
    var k := key;
    if !(arch + DOT <= k) && !(GENERAL <= k) && !(ADAPTER <= k) && !(TOKENIZER <= k) {
      k := arch + DOT + k;
    }
    f.Write(LE(|k|, 8));
    f.Write(k);
    assert f.data == old(f.data) + Text(k);
    if !Supported(v) {
      return Some(ImproperType(k));
    }
    f.Write(ValueBytes(v));
    assert f.data == old(f.data) + (Text(k) + ValueBytes(v));
    return None;
  }

  method WriteTensorInfo(f: File, t: OutTensor, offset: nat)
    modifies f
    ensures f.data == old(f.data) + InfoBytes(TensorInfo(t.name, t.shape, t.kind, offset))
  {
    hide LE, Elems;
    f.Write(LE(|t.name|, 8));
    f.Write(t.name);
    f.Write(LE(|t.shape|, 4));
    ghost var before := f.data;
    assert Elems(t.shape[..0], 8) == [] by { NoElems(8); }
    for k := 0 to |t.shape|
      invariant f.data == before + Elems(t.shape[..k], 8)
    {
      ElemsSnoc(t.shape[..k], t.shape[k], 8);
      assert t.shape[..k + 1] == t.shape[..k] + [t.shape[k]];
      f.Write(LE(t.shape[k], 8));
    }
    assert t.shape[..|t.shape|] == t.shape;
    f.Write(LE(t.kind, 4));
    f.Write(LE(offset, 8));
    assert f.data == old(f.data) + InfoBytes(TensorInfo(t.name, t.shape, t.kind, offset));
  }

  lemma NoElems(w: nat)
    ensures Elems([], w) == []
  {}

  lemma {:induction false} ElemsSnoc(es: seq<nat>, e: nat, w: nat)
    ensures Elems(es + [e], w) == Elems(es, w) + LE(e, w)
  {
    hide LE;
    if es == [] {
      assert [] + [e] == [e] && [e][1..] == [];
    } else {
      ElemsSnoc(es[1..], e, w);
      assert (es + [e])[1..] == es[1..] + [e];
    }
  }

  lemma {:induction false} EntriesSnoc(es: seq<Entry>, e: Entry)
    ensures Entries(es + [e]) == Entries(es) + EntryBytes(e) && Entries([]) == []
  {
    hide EntryBytes;
    if es == [] {
      assert [] + [e] == [e] && [e][1..] == [];
    } else {
      EntriesSnoc(es[1..], e);
      assert (es + [e])[1..] == es[1..] + [e];
    }
  }

  lemma {:induction false} InfosSnoc(ts: seq<TensorInfo>, t: TensorInfo)
    ensures Infos(ts + [t]) == Infos(ts) + InfoBytes(t) && Infos([]) == []
  {
    hide InfoBytes;
    if ts == [] {
      assert [] + [t] == [t] && [t][1..] == [];
    } else {
      InfosSnoc(ts[1..], t);
      assert (ts + [t])[1..] == ts[1..] + [t];
    }
  }

  /** Writes the entries in key order, stopping at the first value it cannot write. */
  method WriteEntries(f: File, arch: seq<byte>, kv: Metadata) returns (r: Option<WriteError>)
    requires arch == Architecture(kv)
    modifies f
    ensures r.None? <==> forall k | k in kv :: Supported(kv[k])
    ensures r.None? ==> f.data == old(f.data) + Entries(EntriesOf(kv))
    ensures r.Some? ==> r.value.ImproperType?
  {
    hide Entries, EntryBytes, EntriesFor, Supported, SortedKeys, FullKey, Architecture;
    var keys := Keys(kv.Keys);
    SortedKeysAre(kv.Keys);
    ghost var es := EntriesOf(kv);
    EntriesSnoc([], Entry([], Other));
    for i := 0 to |keys|
      invariant f.data == old(f.data) + Entries(es[..i])
      invariant forall j | 0 <= j < i :: Supported(kv[keys[j]])
    {
      var e := WriteKV(f, arch, keys[i], kv[keys[i]]);
      if e.Some? {
        assert keys[i] in kv && !Supported(kv[keys[i]]);
        return e;
      }
      EntriesSnoc(es[..i], es[i]);
      TakeNext(es, i);
    }
    assert es[..|keys|] == es;
    return None;
  }

  method WriteInfos(f: File, ts: seq<OutTensor>, align: nat) returns (offsets: seq<nat>)
    requires align > 0
    modifies f
    ensures f.data == old(f.data) + Infos(InfosFor(ts, align))
    ensures |offsets| == |ts| && forall k | 0 <= k < |ts| :: offsets[k] == OffsetOf(Sizes(ts), align, k)
  {
    hide Infos, InfoBytes, InfosFor, Padding, Less, OffsetOf;
    FirstOffset(Sizes(ts), align);
    var s := 0;
    offsets := [];
    ghost var infos := InfosFor(ts, align);
    InfosSnoc([], TensorInfo([], [], 0, 0));
    for i := 0 to |ts|
      invariant s == OffsetOf(Sizes(ts), align, i) && |offsets| == i
      invariant forall k | 0 <= k < i :: offsets[k] == OffsetOf(Sizes(ts), align, k)
      invariant f.data == old(f.data) + Infos(infos[..i])
    {
      offsets := offsets + [s];
      WriteTensorInfo(f, ts[i], s);
      InfosSnoc(infos[..i], infos[i]);
      TakeNext(infos, i);
      NextOffset(Sizes(ts), align, i);
      s := s + |ts[i].payload|;
      s := s + Padding(s, align);
    }
    assert infos[..|ts|] == infos;
  }

  method WritePayloads(f: File, ts: seq<OutTensor>, offsets: seq<nat>, align: nat)
    requires align > 0 && |offsets| == |ts|
    requires forall k | 0 <= k < |ts| :: offsets[k] == OffsetOf(Sizes(ts), align, k)
    modifies f
    ensures old(f.data) <= f.data
    ensures HoldsPayloads(f.data, DataStart(|old(f.data)|, align), ts, align, |ts|)
  {
    hide Padding, Less, OffsetOf, HoldsPayloads;
    NonePlaced(f.data, DataStart(|f.data|, align), ts, align);
    assert OffsetOf(Sizes(ts), align, 0) == 0 by { FirstOffset(Sizes(ts), align); }
    var offset := |f.data|;
    offset := offset + Padding(offset, align);
    ghost var start := DataStart(|f.data|, align);
    for i := 0 to |ts|
      invariant old(f.data) <= f.data
      invariant |f.data| <= start + OffsetOf(Sizes(ts), align, i)
      invariant HoldsPayloads(f.data, start, ts, align, i)
    {
      ghost var before := f.data;
      OffsetsAligned(Sizes(ts), align, i);
      f.WriteAt(offset + offsets[i], ts[i].payload);
      HoldsNext(before, f.data, start, ts, align, i);
    }
  }

  lemma FirstOffset(sizes: seq<nat>, align: nat)
    requires align > 0
    ensures OffsetOf(sizes, align, 0) == 0
  {}

  lemma NextOffset(sizes: seq<nat>, align: nat, i: nat)
    requires align > 0 && i < |sizes|
    ensures var end := OffsetOf(sizes, align, i) + sizes[i];
            OffsetOf(sizes, align, i + 1) == end + Padding(end, align)
  {
    hide Padding;
  }

  lemma TakeNext<T>(xs: seq<T>, i: nat)
    requires i < |xs|
    ensures xs[..i + 1] == xs[..i] + [xs[i]]
  {}

  lemma HoldsLonger(a: seq<byte>, b: seq<byte>, at: nat, bs: seq<byte>)
    requires Holds(a, at, bs) && a <= b
    ensures Holds(b, at, bs)
  {
    if bs != [] { assert b[at..at + |bs|] == a[at..at + |bs|]; }
  }

  lemma NonePlaced(data: seq<byte>, start: nat, ts: seq<OutTensor>, align: nat)
    requires align > 0
    ensures HoldsPayloads(data, start, ts, align, 0)
  {}

  lemma HoldsNext(a: seq<byte>, b: seq<byte>, start: nat, ts: seq<OutTensor>, align: nat, i: nat)
    requires align > 0 && i < |ts| && HoldsPayloads(a, start, ts, align, i) && a <= b
    requires Holds(b, start + OffsetOf(Sizes(ts), align, i), ts[i].payload)
    ensures HoldsPayloads(b, start, ts, align, i + 1)
  {
    hide OffsetOf, Holds;
    forall k | 0 <= k < i ensures Holds(b, start + OffsetOf(Sizes(ts), align, k), ts[k].payload) {
      HoldsLonger(a, b, start + OffsetOf(Sizes(ts), align, k), ts[k].payload);
    }
  }

  /** writeGGUF on a new file. A zero alignment would divide by zero. */
  method WriteGGUF(f: File, kv: Metadata, ts: seq<OutTensor>) returns (r: Option<WriteError>)
    requires f.data == [] && Alignment(kv) > 0
    modifies f
    ensures r == Some(NoArchitecture) <==> Architecture(kv) == []
    ensures r == Some(NoArchitecture) ==> f.data == []
    ensures r.None? <==> Architecture(kv) != [] && forall k | k in kv :: Supported(kv[k])
    ensures r.None? ==> HeaderOf(kv, ts) <= f.data
    ensures r.None? ==> var align := Alignment(kv);
              HoldsPayloads(f.data, DataStart(|HeaderOf(kv, ts)|, align), StableSort(ts), align, |StableSort(ts)|)
  {
    var arch := Architecture(kv);
    if arch == [] {
      return Some(NoArchitecture);
    }
    f.Write(MAGIC);
    f.Write(LE(VERSION, 4));
    f.Write(LE(|ts|, 8));
    f.Write(LE(|kv|, 8));
    var e := WriteEntries(f, arch, kv);
    if e.Some? {
      return e;
    }
    var sorted := StableSort(ts);
    var align := Alignment(kv);
    var offsets := WriteInfos(f, sorted, align);
    assert f.data == HeaderOf(kv, ts) by { HeaderParts(kv, ts, f.data); }
    WritePayloads(f, sorted, offsets, align);
    return None;
  }

  lemma HeaderParts(kv: Metadata, ts: seq<OutTensor>, data: seq<byte>)
    requires Alignment(kv) > 0
    requires data == [] + MAGIC + LE(VERSION, 4) + LE(|ts|, 8) + LE(|kv|, 8) + Entries(EntriesOf(kv))
                     + Infos(InfosFor(StableSort(ts), Alignment(kv)))
    ensures data == HeaderOf(kv, ts)
  {
    hide LE, Entries, Infos, SortedKeys, StableSort, OffsetOf, Architecture, Alignment, FullKey;
    HeaderCounts(kv, ts);
    assert [] + MAGIC == MAGIC;
  }

  /** No entry and no tensor is missing from the header or counted twice. */
  lemma HeaderCounts(kv: Metadata, ts: seq<OutTensor>)
    ensures |EntriesOf(kv)| == |kv| && |StableSort(ts)| == |ts|
  {
    hide StableSort;
    SortedKeysAre(kv.Keys);
    StableSortSorts(ts);
    assert |StableSort(ts)| == |multiset(StableSort(ts))| == |multiset(ts)| == |ts|;
  }

  // ---- What a reader finds ------------------------------------------------

  /** What the Go types and file sizes guarantee. */
  ghost predicate WithinLimits(kv: Metadata, ts: seq<OutTensor>) {
    && Alignment(kv) > 0 && |kv| < Limit(8) && |ts| < Limit(8)
    && (forall e | e in EntriesOf(kv) :: TypedEntry(e))
    && (forall t | t in InfosFor(StableSort(ts), Alignment(kv)) :: TypedInfo(t))
  }

  lemma PrefixAndRest(prefix: seq<byte>, data: seq<byte>)
    requires prefix <= data
    ensures data == prefix + data[|prefix|..]
  {}

  /** Counts and values fit their fields. */
  lemma LimitsHold(kv: Metadata, ts: seq<OutTensor>)
    requires WithinLimits(kv, ts)
    ensures var es, infos := EntriesOf(kv), InfosFor(StableSort(ts), Alignment(kv));
            |es| < Limit(8) && |infos| < Limit(8) &&
            (forall k | 0 <= k < |es| :: TypedEntry(es[k])) && forall k | 0 <= k < |infos| :: TypedInfo(infos[k])
  {
    hide StableSort, EntriesOf, TypedEntry, TypedInfo, Alignment, Limit;
    HeaderCounts(kv, ts);
    var es, infos := EntriesOf(kv), InfosFor(StableSort(ts), Alignment(kv));
    hide InfosFor;
    forall k | 0 <= k < |es| ensures TypedEntry(es[k]) { assert es[k] in es; }
    forall k | 0 <= k < |infos| ensures TypedInfo(infos[k]) { assert infos[k] in infos; }
  }

  /** Reading a written header back gives the entries in key order and the tensor infos
      in sorted order. */
  lemma FileRoundTrip(kv: Metadata, ts: seq<OutTensor>, data: seq<byte>)
    requires WithinLimits(kv, ts) && HeaderOf(kv, ts) <= data
    ensures var infos := InfosFor(StableSort(ts), Alignment(kv));
            ReadHeader(data) == Parsed(Header(EntriesOf(kv), infos), data[|HeaderOf(kv, ts)|..])
  {
    assert Alignment(kv) > 0;
    hide HeaderBytes, ReadHeader, StableSort, EntriesOf, InfosFor, TypedEntry, TypedInfo, Alignment, Limit,
      WithinLimits;
    LimitsHold(kv, ts);
    PrefixAndRest(HeaderOf(kv, ts), data);
    HeaderRoundTrip(EntriesOf(kv), InfosFor(StableSort(ts), Alignment(kv)), data[|HeaderOf(kv, ts)|..]);
  }

  /** The metadata map that entries denote, a later entry replacing an earlier one. */
  function ToMap(es: seq<Entry>): Metadata {
    if es == [] then map[] else ToMap(es[..|es| - 1])[es[|es| - 1].key := es[|es| - 1].value]
  }

  ghost predicate DistinctKeys(es: seq<Entry>) {
    forall i, j | 0 <= i < j < |es| :: es[i].key != es[j].key
  }

  lemma {:induction false} ToMapHolds(es: seq<Entry>)
    ensures forall k :: k in ToMap(es) <==> exists i | 0 <= i < |es| :: es[i].key == k
    ensures DistinctKeys(es) ==> forall i | 0 <= i < |es| ::
              es[i].key in ToMap(es) && ToMap(es)[es[i].key] == es[i].value
    decreases |es|
  {
    if es != [] {
      var front, last := es[..|es| - 1], es[|es| - 1];
      ToMapHolds(front);
      var was := ToMap(front);
      assert ToMap(es) == was[last.key := last.value];
      hide ToMap;
      assert forall i | 0 <= i < |front| :: es[i] == front[i];
      forall k ensures k in ToMap(es) <==> exists i | 0 <= i < |es| :: es[i].key == k {
        if k == last.key { assert es[|es| - 1].key == k; }
        if i :| 0 <= i < |front| && front[i].key == k { assert es[i].key == k; }
      }
    }
  }

  /** The header's keys are distinct unless one key is another with the
      architecture's prefix in front: then, and only then, the file repeats a key. */
  lemma KeysDistinctIff(kv: Metadata)
    ensures DistinctKeys(EntriesOf(kv)) <==>
            !exists k | k in kv :: !Qualified(Architecture(kv), k) && Architecture(kv) + DOT + k in kv
  {
    var arch, keys, es := Architecture(kv), SortedKeys(kv.Keys), EntriesOf(kv);
    SortedKeysAre(kv.Keys);
    if k :| k in kv && !Qualified(arch, k) && arch + DOT + k in kv {
      var k' := arch + DOT + k;
      var i :| 0 <= i < |keys| && keys[i] == k;
      var j :| 0 <= j < |keys| && keys[j] == k';
      assert Qualified(arch, k');
      assert es[i].key == k' && es[j].key == k' && i != j;
    }
    if i, j :| 0 <= i < j < |es| && es[i].key == es[j].key {
      var a, b := keys[i], keys[j];
      LessTotal(a, b);
      assert a in kv && b in kv && a != b;
      if Qualified(arch, a) {
        assert !Qualified(arch, b);
        assert arch + DOT + b == a;
      } else if Qualified(arch, b) {
        assert arch + DOT + a == b;
      } else {
        SamePrefix(arch + DOT, a, b);
      }
    }
  }

  const ONE := Scalar(Uint32, 1)

  /** Architecture "a", with the key "x" and the key "a.x". */
  const TWICE: Metadata := map[ARCHITECTURE := Str([97]), [120] := ONE, [97, 46, 120] := ONE]

  /** Each key and value of this metadata can be written, but the header has the key
      "a.x" twice. */
  lemma KeyWrittenTwice()
    ensures Architecture(TWICE) != [] && forall k | k in TWICE :: Supported(TWICE[k])
    ensures !DistinctKeys(EntriesOf(TWICE))
  {
    hide EntriesOf;
    var x, ax: seq<byte> := [120], [97, 46, 120];
    assert |ARCHITECTURE| == 20 && |x| == 1 && |ax| == 3;
    assert Architecture(TWICE) == [97] && [97] + DOT + x == ax;
    assert x in TWICE && ax in TWICE;
    NotQualified();
    KeysDistinctIff(TWICE);
  }

  lemma NotQualified()
    ensures !Qualified([97], [120])
  {
    assert ([97] + DOT)[0] != 120 && GENERAL[0] != 120 && ADAPTER[0] != 120 && TOKENIZER[0] != 120;
  }

  lemma SamePrefix(p: seq<byte>, a: seq<byte>, b: seq<byte>)
    requires p + a == p + b
    ensures a == b
  {
    assert (p + a)[|p|..] == a && (p + b)[|p|..] == b;
  }

  /** With distinct full keys the parsed entries are the metadata itself, under
      its full keys. */
  lemma MetadataRoundTrip(kv: Metadata)
    requires DistinctKeys(EntriesOf(kv))
    ensures var m := ToMap(EntriesOf(kv));
            (forall k | k in kv :: FullKey(Architecture(kv), k) in m && m[FullKey(Architecture(kv), k)] == kv[k]) &&
            (forall k' | k' in m :: exists k | k in kv :: FullKey(Architecture(kv), k) == k')
  {
    hide SortedKeys, Less, ToMap, FullKey, Architecture;
    var arch, keys, es := Architecture(kv), SortedKeys(kv.Keys), EntriesOf(kv);
    SortedKeysAre(kv.Keys);
    ToMapHolds(es);
    forall k | k in kv ensures FullKey(arch, k) in ToMap(es) && ToMap(es)[FullKey(arch, k)] == kv[k] {
      var i :| 0 <= i < |keys| && keys[i] == k;
      assert es[i] == Entry(FullKey(arch, k), kv[k]);
    }
    forall k' | k' in ToMap(es) ensures exists k | k in kv :: FullKey(arch, k) == k' {
      var i :| 0 <= i < |es| && es[i].key == k';
      assert keys[i] in kv && FullKey(arch, keys[i]) == k';
    }
  }
}
