/** Inventories and plans of create/plan.go, and how often a plan uses a tensor. */
module PlanTypes {
  import opened Results
  import opened PlanNames

  datatype SourceTensor = SourceTensor(name: string, dtype: string, shape: seq<nat>)

  datatype Transform =
    | Keep | RepackFP4 | RepackFP8 | RelabelU8 | ScalarF32 | F32 | ReciprocalF32
    | StackExperts | DecodeFP8 | DecodeStackFP8

  /** One output tensor. No outShape means the shape of the only source. */
  datatype TensorSpec = TensorSpec(
    name: string, sources: seq<SourceTensor>, transform: Transform, quantize: string,
    outDtype: string, outShape: Option<seq<nat>>)

  datatype BlobSpec = BlobSpec(name: string, tensors: seq<TensorSpec>, metadata: map<string, string>)

  type Inventory = map<string, SourceTensor>

  type Policy = (string, seq<nat>, string) -> string

  datatype PlanError =
    | NotAnExpert | DuplicateExpert | MissingExpert | ExpertCounts | ExpertLayout | NoScale
    | PartlyQuantized | BankLayout | EmbeddingBits | ClashingBlob | ClashingTensor

  function UpperChar(c: char): char { if 'a' <= c <= 'z' then c - 32 as char else c }

  function Upper(s: string): string {
    seq(|s|, k requires 0 <= k < |s| => UpperChar(s[k]))
  }

  predicate IsE4M3(dtype: string) { Upper(dtype) == "F8_E4M3" || Upper(dtype) == "F8_E4M3FN" }

  /** Every entry is filed under its own name. */
  ghost predicate WellKeyed(inv: Inventory) {
    forall k | k in inv :: inv[k].name == k
  }

  /** A tensor carried through unchanged, in a blob of its own. */
  function PlainBlob(name: string, t: SourceTensor, quantize: string): BlobSpec {
    BlobSpec(name, [TensorSpec(name, [t], Keep, quantize, "", None)], map[])
  }

  // ---- The sources of a plan ----------------------------------------------

  function TensorSources(ts: seq<TensorSpec>): seq<SourceTensor> {
    if ts == [] then [] else TensorSources(ts[..|ts| - 1]) + ts[|ts| - 1].sources
  }

  function Sources(specs: seq<BlobSpec>): seq<SourceTensor> {
    if specs == [] then [] else Sources(specs[..|specs| - 1]) + TensorSources(specs[|specs| - 1].tensors)
  }

  /** In how many output positions a tensor is a source. */
  function Uses(specs: seq<BlobSpec>, t: SourceTensor): nat { multiset(Sources(specs))[t] }

  function TensorUses(ts: seq<TensorSpec>, t: SourceTensor): nat { multiset(TensorSources(ts))[t] }

  lemma TensorUsesSnoc(ts: seq<TensorSpec>, x: TensorSpec, t: SourceTensor)
    ensures TensorUses(ts + [x], t) == TensorUses(ts, t) + multiset(x.sources)[t]
    ensures TensorUses([], t) == 0
  {
    assert (ts + [x])[..|ts|] == ts;
  }

  /** A tensor that only spec k uses. */
  lemma {:induction false} OnlyUses(ts: seq<TensorSpec>, t: SourceTensor, k: int)
    requires forall j | 0 <= j < |ts| && j != k :: multiset(ts[j].sources)[t] == 0
    ensures TensorUses(ts, t) == if 0 <= k < |ts| then multiset(ts[k].sources)[t] else 0
    decreases |ts|
  {
    hide TensorUses;
    if ts == [] {
      TensorUsesSnoc([], PlainBlob("", t, "").tensors[0], t);
    } else {
      var n := |ts| - 1;
      OnlyUses(ts[..n], t, k);
      TensorUsesSnoc(ts[..n], ts[n], t);
      assert ts == ts[..n] + [ts[n]];
    }
  }

  lemma UsesSnoc(specs: seq<BlobSpec>, b: BlobSpec, t: SourceTensor)
    ensures Uses(specs + [b], t) == Uses(specs, t) + TensorUses(b.tensors, t)
    ensures Uses([], t) == 0
  {
    assert (specs + [b])[..|specs|] == specs;
  }

  lemma {:induction false} UsesConcat(a: seq<BlobSpec>, b: seq<BlobSpec>, t: SourceTensor)
    ensures Uses(a + b, t) == Uses(a, t) + Uses(b, t)
    decreases |b|
  {
    hide Uses;
    if b == [] {
      assert a + b == a;
      UsesSnoc([], PlainBlob("", t, ""), t);
    } else {
      var front, last := b[..|b| - 1], b[|b| - 1];
      assert a + b == (a + front) + [last] && b == front + [last];
      UsesConcat(a, front, t);
      UsesSnoc(a + front, last, t);
      UsesSnoc(front, last, t);
    }
  }

  lemma OneBlobUses(name: string, tensors: seq<TensorSpec>, metadata: map<string, string>, t: SourceTensor)
    ensures Uses([BlobSpec(name, tensors, metadata)], t) == TensorUses(tensors, t)
  {
    var b := BlobSpec(name, tensors, metadata);
    hide Uses, TensorUses;
    UsesSnoc([], b, t);
    assert [] + [b] == [b];
  }

  lemma PlainUses(name: string, s: SourceTensor, quantize: string, t: SourceTensor)
    ensures Uses([PlainBlob(name, s, quantize)], t) == (if s == t then 1 else 0)
  {
    var ts := PlainBlob(name, s, quantize).tensors;
    OneBlobUses(name, ts, map[], t);
    TensorUsesSnoc([], ts[0], t);
    hide Uses, TensorUses;
    assert [] + ts == ts && multiset([s])[t] == (if s == t then 1 else 0);
  }

  // ---- Blobs listed by name -----------------------------------------------

  /** The blobs of each name, one name after the other. */
  function Flatten(names: seq<string>, blobs: map<string, seq<BlobSpec>>): seq<BlobSpec>
    requires forall x | x in names :: x in blobs
  {
    if names == [] then [] else Flatten(names[..|names| - 1], blobs) + blobs[names[|names| - 1]]
  }

  lemma NothingFlat(names: seq<string>, blobs: map<string, seq<BlobSpec>>)
    requires names == []
    ensures Flatten(names, blobs) == []
  {}

  lemma FlattenNext(names: seq<string>, name: string, blobs: map<string, seq<BlobSpec>>)
    requires name in blobs && forall x | x in names :: x in blobs
    ensures Flatten(names + [name], blobs) == Flatten(names, blobs) + blobs[name]
  {
    assert (names + [name])[..|names|] == names;
  }

  lemma FlattenTo(names: seq<string>, k: nat, blobs: map<string, seq<BlobSpec>>)
    requires k < |names| && forall j | 0 <= j <= k :: names[j] in blobs
    ensures Flatten(names[..k + 1], blobs) == Flatten(names[..k], blobs) + blobs[names[k]]
  {
    assert names[..k + 1] == names[..k] + [names[k]];
    FlattenNext(names[..k], names[k], blobs);
  }

  /** A tensor that only one name's blobs use is used as often as those use it. */
  lemma {:induction false} UsesFlatten(names: seq<string>, blobs: map<string, seq<BlobSpec>>, t: SourceTensor,
          owner: string)
    requires DistinctNames(names) && forall x | x in names :: x in blobs
    requires forall x | x in names && x != owner :: Uses(blobs[x], t) == 0
    ensures Uses(Flatten(names, blobs), t) == if owner in names then Uses(blobs[owner], t) else 0
    decreases |names|
  {
    hide Uses;
    if names == [] {
      UsesSnoc([], PlainBlob("", t, ""), t);
    } else {
      var front, last := names[..|names| - 1], names[|names| - 1];
      UsesFlatten(front, blobs, t, owner);
      UsesConcat(Flatten(front, blobs), blobs[last], t);
      assert names == front + [last] && last !in front;
    }
  }

  /** A tensor no name's blobs use is not used. */
  lemma {:induction false} UsesNowhere(names: seq<string>, blobs: map<string, seq<BlobSpec>>, t: SourceTensor)
    requires forall x | x in names :: x in blobs && Uses(blobs[x], t) == 0
    ensures Uses(Flatten(names, blobs), t) == 0
    decreases |names|
  {
    hide Uses;
    if names == [] {
      UsesSnoc([], PlainBlob("", t, ""), t);
    } else {
      UsesNowhere(names[..|names| - 1], blobs, t);
      UsesConcat(Flatten(names[..|names| - 1], blobs), blobs[names[|names| - 1]], t);
    }
  }
}
