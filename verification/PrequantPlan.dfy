/** planPrequantized and planPrequantExpertGroup of create/prequant.go. */
module PrequantPlan {
  import opened Results
  import opened PlanNames
  import opened PlanTypes
  import opened PlanExperts
  import opened PlanGroups
  import opened PrequantMatch

  // ---- Fused weights ------------------------------------------------------

  function FusedBlobs(inv: Inventory, config: Config): map<string, BlobSpec> {
    map x | x in inv && MatchPrequant(inv, config, x).Some? :: MatchPrequant(inv, config, x).value.spec
  }

  /** The tensors a fused weight takes with it: those it stores and those it drops. */
  function TakenNames(inv: Inventory, config: Config): set<string> {
    set x, s | x in inv && MatchPrequant(inv, config, x).Some? &&
               s in MatchPrequant(inv, config, x).value.used + MatchPrequant(inv, config, x).value.ignored :: s
  }

  const EMBEDDING := "model.embed_tokens.weight"

  predicate Int4Embedding(config: Config, fused: map<string, BlobSpec>) {
    config.flint && EMBEDDING in fused &&
    "quant_type" in fused[EMBEDDING].metadata && fused[EMBEDDING].metadata["quant_type"] == "int4"
  }

  /** A Flint model's embedding may be packed eight bits wide; only the export says so. */
  function WithEmbedding(config: Config, fused: map<string, BlobSpec>): Option<map<string, BlobSpec>> {
    if !Int4Embedding(config, fused) then Some(fused)
    else if config.embeddingBits == Some(8) then
      var b := fused[EMBEDDING];
      Some(fused[EMBEDDING := b.(metadata := b.metadata["quant_type" := "int8"])])
    else if config.embeddingBits == Some(4) then Some(fused)
    else None
  }

  // ---- Banks of packed experts --------------------------------------------

  /** What a fused expert brings to its bank. */
  datatype Part = Part(words: seq<nat>, scale: SourceTensor, global: SourceTensor, metadata: map<string, string>)

  /** The shape of a weight's packed words, if the weight is packed as expected. */
  function WordShape(weight: SourceTensor, normalized: TensorSpec): Option<seq<nat>>
    requires |weight.shape| == 2
  {
    if weight.dtype == "U32" then
      if normalized.transform == Keep then Some(weight.shape) else None
    else if weight.dtype == "U8" then
      if normalized.transform == RepackFP4 && normalized.outDtype == "U32" && normalized.outShape.Some? &&
         |normalized.outShape.value| == 2 && weight.shape[1] % 4 == 0
      then Some(normalized.outShape.value) else None
    else None
  }

  /** A fused NVFP4 expert: packed words, one scale and one F32 global scale. */
  function PartOf(weight: SourceTensor, fused: map<string, BlobSpec>): Option<Part> {
    if weight.name !in fused then None
    else
      var part := fused[weight.name];
      if "quant_type" !in part.metadata || part.metadata["quant_type"] != "nvfp4" then None
      else if |part.tensors| != 3 || |weight.shape| != 2 then None
      else
        var words, scale, global := WordShape(weight, part.tensors[0]), part.tensors[1], part.tensors[2];
        if words.None? then None
        else if scale.name != weight.name + ".scale" || global.name != weight.name + ".global_scale" ||
                |scale.sources| != 1 || |global.sources| != 1 || global.transform != ScalarF32 then None
        else
          var s, g := scale.sources[0], global.sources[0];
          var isU8 := s.dtype == "U8" && scale.transform == Keep;
          var isFP8 := IsE4M3(s.dtype) && scale.transform == RelabelU8 && scale.outDtype == "U8";
          if (!isU8 && !isFP8) || |s.shape| != 2 || g.dtype != "F32" || g.shape != [1] then None
          else Some(Part(words.value, s, g, part.metadata))
  }

  predicate AllParts(ws: seq<SourceTensor>, fused: map<string, BlobSpec>) {
    forall w | w in ws :: PartOf(w, fused).Some?
  }

  function Parts(ws: seq<SourceTensor>, fused: map<string, BlobSpec>): (ps: seq<Part>)
    requires AllParts(ws, fused)
    ensures |ps| == |ws| && forall k | 0 <= k < |ws| :: ws[k] in ws && ps[k] == PartOf(ws[k], fused).value
  {
    seq(|ws|, k requires 0 <= k < |ws| => assert ws[k] in ws; PartOf(ws[k], fused).value)
  }

  /** Words and scales of one layout, and this metadata throughout. */
  predicate OneBank(ps: seq<Part>, metadata: map<string, string>) {
    forall p | p in ps ::
      p.words == ps[0].words && p.scale.dtype == ps[0].scale.dtype && p.scale.shape == ps[0].scale.shape &&
      p.metadata == metadata
  }

  function ScaleTensors(ps: seq<Part>): (ts: seq<SourceTensor>)
    ensures |ts| == |ps| && forall k | 0 <= k < |ps| :: ts[k] == ps[k].scale
  {
    seq(|ps|, k requires 0 <= k < |ps| => ps[k].scale)
  }

  function GlobalTensors(ps: seq<Part>): (ts: seq<SourceTensor>)
    ensures |ts| == |ps| && forall k | 0 <= k < |ps| :: ts[k] == ps[k].global
  {
    seq(|ps|, k requires 0 <= k < |ps| => ps[k].global)
  }

  /** A stack of packed words, with the stacks of its scales and global scales. */
  function BankOf(packed: TensorSpec, ps: seq<Part>): seq<TensorSpec>
    requires ps != []
  {
    var count := |ps|;
    [packed.(outDtype := "U32", outShape := Some([count] + ps[0].words)),
     TensorSpec(packed.name + ".scale", ScaleTensors(ps), StackExperts, "", "U8", Some([count] + ps[0].scale.shape)),
     TensorSpec(packed.name + ".global_scale", GlobalTensors(ps), StackExperts, "", "F32", Some([count]))]
  }

  /** Every stack's experts form a bank with this metadata. */
  predicate AllBanks(stacks: seq<TensorSpec>, fused: map<string, BlobSpec>, metadata: map<string, string>) {
    forall s | s in stacks :: s.sources != [] && AllParts(s.sources, fused) &&
      OneBank(Parts(s.sources, fused), metadata)
  }

  function BankTensors(stacks: seq<TensorSpec>, fused: map<string, BlobSpec>,
          metadata: map<string, string>): seq<TensorSpec>
    requires AllBanks(stacks, fused, metadata)
  {
    if stacks == [] then []
    else
      var last := stacks[|stacks| - 1];
      BankTensors(stacks[..|stacks| - 1], fused, metadata) + BankOf(last, Parts(last.sources, fused))
  }

  /** The metadata of the group's first expert. */
  function BankMetadata(stacks: seq<TensorSpec>, fused: map<string, BlobSpec>): map<string, string> {
    if stacks != [] && stacks[0].sources != [] && stacks[0].sources[0].name in fused
    then fused[stacks[0].sources[0].name].metadata else map[]
  }

  /** One stack of packed words turned into a bank of three tensors. */
  method PlanBank(packed: TensorSpec, fused: map<string, BlobSpec>, metadata: Option<map<string, string>>)
    returns (r: Result<(seq<TensorSpec>, map<string, string>), PlanError>)
    requires packed.sources != []
    ensures r.Success? <==>
            AllParts(packed.sources, fused) &&
            OneBank(Parts(packed.sources, fused),
                    if metadata.Some? then metadata.value else Parts(packed.sources, fused)[0].metadata)
    ensures r.Success? ==>
              r.value == (BankOf(packed, Parts(packed.sources, fused)), Parts(packed.sources, fused)[0].metadata)
  {
    hide PartOf;
    var ws := packed.sources;
    var ps: seq<Part> := [];
    var seen := metadata;
    for index := 0 to |ws|
      invariant |ps| == index && forall k | 0 <= k < index :: PartOf(ws[k], fused) == Some(ps[k])
      invariant forall k | 0 <= k < index ::
                  ps[k].words == ps[0].words && ps[k].scale.dtype == ps[0].scale.dtype &&
                    ps[k].scale.shape == ps[0].scale.shape
      invariant seen == if metadata.Some? || index == 0 then metadata else Some(ps[0].metadata)
      invariant forall k | 0 <= k < index :: seen.Some? && ps[k].metadata == seen.value
    {
      var part := PartOf(ws[index], fused);
      if part.None? { assert ws[index] in ws; return Failure(BankLayout); }
      var p := part.value;
      if index > 0 &&
         (p.words != ps[0].words || p.scale.dtype != ps[0].scale.dtype || p.scale.shape != ps[0].scale.shape) {
        BankDiffers(ws, fused, index);
        return Failure(BankLayout);
      }
      if seen.Some? && seen.value != p.metadata { BankMetadataDiffers(ws, fused, index); return Failure(BankLayout); }
      seen := Some(p.metadata);
      ps := ps + [p];
    }
    assert AllParts(ws, fused);
    assert ps == Parts(ws, fused);
    r := Success((BankOf(packed, ps), ps[0].metadata));
  }

  lemma BankDiffers(ws: seq<SourceTensor>, fused: map<string, BlobSpec>, k: nat)
    requires 0 < k < |ws| && PartOf(ws[0], fused).Some? && PartOf(ws[k], fused).Some?
    requires var p, q := PartOf(ws[k], fused).value, PartOf(ws[0], fused).value;
             p.words != q.words || p.scale.dtype != q.scale.dtype || p.scale.shape != q.scale.shape
    ensures AllParts(ws, fused) ==> forall m :: !OneBank(Parts(ws, fused), m)
  {
    hide PartOf;
    if AllParts(ws, fused) {
      assert Parts(ws, fused)[k] in Parts(ws, fused);
    }
  }

  lemma BankMetadataDiffers(ws: seq<SourceTensor>, fused: map<string, BlobSpec>, k: nat)
    requires k < |ws| && PartOf(ws[k], fused).Some?
    ensures AllParts(ws, fused) ==> forall m | m != PartOf(ws[k], fused).value.metadata :: !OneBank(Parts(ws, fused), m)
  {
    hide PartOf;
    if AllParts(ws, fused) {
      assert Parts(ws, fused)[k] in Parts(ws, fused);
    }
  }

  // ---- Expert groups ------------------------------------------------------

  lemma UnquantizedStacks(gp: string, projs: seq<string>, m: map<string, ByIndex<SourceTensor>>, policy: Policy)
    requires Stackable(m) && (forall p | p in projs :: p in m) && projs != []
    ensures var stacks := Stacks(gp, projs, m, "", policy);
            stacks != [] && (forall s | s in stacks :: s.sources != []) && OneQuantization(stacks)
  {
    hide Contiguous;
    var stacks := Stacks(gp, projs, m, "", policy);
    forall s | s in stacks ensures s.quantize == "" && s.sources != [] {
      var k :| 0 <= k < |stacks| && stacks[k] == s;
      assert projs[k] in m;
    }
  }

  lemma FiledNonempty(gp: string, ts: seq<SourceTensor>)
    requires ts != [] && ByProjection(gp, Names(ts), ts).Some?
    ensures ByProjection(gp, Names(ts), ts).value != map[]
  {
    hide ByProjection, ParseExpertTensor;
    ByProjectionFiles(gp, Names(ts), ts);
    assert PlacedAt(gp, Names(ts), ts, ByProjection(gp, Names(ts), ts).value, 0);
  }

  /** Without quantization a group is one blob of nonempty stacks. */
  lemma UnquantizedGroup(gp: string, ts: seq<SourceTensor>, policy: Policy)
    requires ts != [] && ExpertGroupPlan(gp, ts, "", policy).Some?
    ensures var specs := ExpertGroupPlan(gp, ts, "", policy).value;
            |specs| == 1 && specs[0].name == gp && specs[0].tensors != [] &&
            forall s | s in specs[0].tensors :: s.sources != []
  {
    hide ByProjection, SameLayout, InOrder, SortedNames, Contiguous, Stacks, OneQuantization;
    var m := ByProjection(gp, Names(ts), ts).value;
    ByProjectionFiles(gp, Names(ts), ts);
    FiledNonempty(gp, ts);
    SortedNamesAre(m.Keys);
    var projs := SortedNames(m.Keys);
    assert projs != [] by { var p :| p in m; assert p in projs; }
    UnquantizedStacks(gp, projs, m, policy);
  }

  /** The plan of a group whose experts are all fused. */
  ghost function BankPlan(gp: string, ts: seq<SourceTensor>, fused: map<string, BlobSpec>,
          policy: Policy): Option<seq<BlobSpec>> {
    match ExpertGroupPlan(gp, ts, "", policy)
    case None => None
    case Some(specs) =>
      if specs == [] then None
      else
        var stacks := specs[0].tensors;
        var metadata := BankMetadata(stacks, fused);
        if AllBanks(stacks, fused, metadata)
        then Some([BlobSpec(specs[0].name, BankTensors(stacks, fused, metadata), metadata)] + specs[1..])
        else None
  }

  /** Banks of all stacks, sharing the first one's metadata. */
  method PlanBanks(stacks: seq<TensorSpec>, fused: map<string, BlobSpec>)
    returns (r: Result<(seq<TensorSpec>, map<string, string>), PlanError>)
    requires stacks != [] && forall s | s in stacks :: s.sources != []
    ensures r.Success? <==> AllBanks(stacks, fused, BankMetadata(stacks, fused))
    ensures r.Success? ==> r.value.1 == BankMetadata(stacks, fused)
    ensures r.Success? ==> r.value.0 == BankTensors(stacks, fused, BankMetadata(stacks, fused))
  {
    hide AllParts, OneBank, BankOf, BankMetadata;
    ghost var md := BankMetadata(stacks, fused);
    var tensors: seq<TensorSpec> := [];
    var metadata: Option<map<string, string>> := None;
    for k := 0 to |stacks|
      invariant AllBanks(stacks[..k], fused, md)
      invariant tensors == BankTensors(stacks[..k], fused, md)
      invariant metadata == if k == 0 then None else Some(md)
    {
      var packed := stacks[k];
      assert packed in stacks && stacks[..k + 1] == stacks[..k] + [packed];
      if k == 0 && AllParts(packed.sources, fused) { BankStart(stacks, fused); }
      var bank := PlanBank(packed, fused, metadata);
      if bank.Failure? { return Failure(bank.error); }
      tensors := tensors + bank.value.0;
      metadata := Some(bank.value.1);
      BankKeeps(packed, fused, md);
      assert stacks[..k + 1][..k] == stacks[..k];
    }
    assert stacks[..|stacks|] == stacks;
    r := Success((tensors, metadata.value));
  }

  /** The first expert's metadata is the bank's. */
  lemma BankStart(stacks: seq<TensorSpec>, fused: map<string, BlobSpec>)
    requires stacks != [] && stacks[0].sources != [] && AllParts(stacks[0].sources, fused)
    ensures Parts(stacks[0].sources, fused)[0].metadata == BankMetadata(stacks, fused)
  {}

  lemma BankKeeps(packed: TensorSpec, fused: map<string, BlobSpec>, metadata: map<string, string>)
    requires packed.sources != [] && AllParts(packed.sources, fused) && OneBank(Parts(packed.sources, fused), metadata)
    ensures Parts(packed.sources, fused)[0].metadata == metadata
  {}

  method PlanPrequantExpertGroup(gp: string, ts: seq<SourceTensor>, fused: map<string, BlobSpec>, policy: Policy)
    returns (r: Result<seq<BlobSpec>, PlanError>)
    requires ts != []
    ensures r.Success? <==> BankPlan(gp, ts, fused, policy).Some?
    ensures r.Success? ==> r.value == BankPlan(gp, ts, fused, policy).value
  {
    hide ExpertGroupPlan, AllBanks, BankMetadata, BankTensors;
    var grouped := PlanExpertGroup(gp, ts, "", policy);
    if grouped.Failure? { return Failure(grouped.error); }
    UnquantizedGroup(gp, ts, policy);
    var specs := grouped.value;
    var banks := PlanBanks(specs[0].tensors, fused);
    if banks.Failure? { return Failure(banks.error); }
    r := Success([BlobSpec(specs[0].name, banks.value.0, banks.value.1)] + specs[1..]);
  }

  predicate AllFused(ts: seq<SourceTensor>, fused: map<string, BlobSpec>) {
    forall t | t in ts :: t.name in fused
  }

  predicate NoneFused(ts: seq<SourceTensor>, fused: map<string, BlobSpec>) {
    forall t | t in ts :: t.name !in fused
  }

  /** A group is packed or plain throughout. */
  ghost function PackedOrPlain(gp: string, ts: seq<SourceTensor>, fused: map<string, BlobSpec>,
          policy: Policy): Option<seq<BlobSpec>> {
    if NoneFused(ts, fused) then ExpertGroupPlan(gp, ts, "", policy)
    else if AllFused(ts, fused) then BankPlan(gp, ts, fused, policy)
    else None
  }

  function CountFused(ts: seq<SourceTensor>, fused: map<string, BlobSpec>): (n: nat)
    ensures n <= |ts|
    ensures n == 0 <==> NoneFused(ts, fused)
    ensures n == |ts| <==> AllFused(ts, fused)
  {
    if ts == [] then 0
    else CountFused(ts[1..], fused) + if ts[0].name in fused then 1 else 0
  }

  method PlanPackedOrPlain(gp: string, ts: seq<SourceTensor>, fused: map<string, BlobSpec>, policy: Policy)
    returns (r: Result<seq<BlobSpec>, PlanError>)
    requires ts != []
    ensures r.Success? <==> PackedOrPlain(gp, ts, fused, policy).Some?
    ensures r.Success? ==> r.value == PackedOrPlain(gp, ts, fused, policy).value
  {
    hide ExpertGroupPlan, BankPlan;
    var quantized := 0;
    for k := 0 to |ts|
      invariant quantized == CountFused(ts, fused) - CountFused(ts[k..], fused)
    {
      assert ts[k..][1..] == ts[k + 1..];
      if ts[k].name in fused { quantized := quantized + 1; }
    }
    if quantized != 0 && quantized != |ts| { return Failure(PartlyQuantized); }
    if quantized == 0 {
      r := PlanExpertGroup(gp, ts, "", policy);
    } else {
      r := PlanPrequantExpertGroup(gp, ts, fused, policy);
    }
  }

  // ---- The whole plan -----------------------------------------------------

  /** Flint's experts are stacked; no other model's are. */
  function FlintExperts(layer: string -> bool, config: Config): Selection {
    name => if config.flint then PerExpertGroup(layer, name) else None
  }

  /** Names that get no blob of their own: companions of fused weights, and experts. */
  function Taken(layer: string -> bool, inv: Inventory, config: Config): Selection {
    name => if name in TakenNames(inv, config) then Some("") else FlintExperts(layer, config)(name)
  }

  function RestBlob(inv: Inventory, fused: map<string, BlobSpec>, name: string): BlobSpec
    requires name in inv
  {
    if name in fused then fused[name] else PlainBlob(name, inv[name], "")
  }

  function RestBlobs(inv: Inventory, fused: map<string, BlobSpec>): map<string, seq<BlobSpec>> {
    map name | name in inv :: [RestBlob(inv, fused, name)]
  }

  ghost predicate AllPackedOrPlain(g: map<string, seq<SourceTensor>>, fused: map<string, BlobSpec>, policy: Policy) {
    forall gp | gp in g :: PackedOrPlain(gp, g[gp], fused, policy).Some?
  }

  ghost function PackedBlobs(g: map<string, seq<SourceTensor>>, fused: map<string, BlobSpec>,
          policy: Policy): map<string, seq<BlobSpec>>
    requires AllPackedOrPlain(g, fused, policy)
  {
    map gp | gp in g :: PackedOrPlain(gp, g[gp], fused, policy).value
  }

  ghost function PackedPart(g: map<string, seq<SourceTensor>>, fused: map<string, BlobSpec>,
          policy: Policy): seq<BlobSpec>
    requires AllPackedOrPlain(g, fused, policy)
  {
    SortedNamesAre(g.Keys);
    Flatten(SortedNames(g.Keys), PackedBlobs(g, fused, policy))
  }

  ghost function PrequantPlanned(layer: string -> bool, inv: Inventory, config: Config,
          policy: Policy): Option<seq<BlobSpec>> {
    SortedNamesAre(inv.Keys);
    var names := SortedNames(inv.Keys);
    var g := Grouping(FlintExperts(layer, config), inv, names);
    match WithEmbedding(config, FusedBlobs(inv, config))
    case None => None
    case Some(fused) =>
      if AllPackedOrPlain(g, fused, policy)
      then Some(PackedPart(g, fused, policy) +
                Flatten(Ungrouped(Taken(layer, inv, config), names), RestBlobs(inv, fused)))
      else None
  }

  method MatchAll(inv: Inventory, config: Config, names: seq<string>)
    returns (fused: map<string, BlobSpec>, consumed: set<string>)
    requires forall n :: n in names <==> n in inv
    ensures fused == FusedBlobs(inv, config) && consumed == TakenNames(inv, config)
  {
    hide MatchPrequant;
    fused, consumed := map[], {};
    for k := 0 to |names|
      invariant fused ==
                map x | x in names[..k] && x in inv && MatchPrequant(inv, config, x).Some? ::
                  MatchPrequant(inv, config, x).value.spec
      invariant consumed == set x, s | x in names[..k] && x in inv && MatchPrequant(inv, config, x).Some? &&
                              s in MatchPrequant(inv, config, x).value.used +
                                MatchPrequant(inv, config, x).value.ignored :: s
    {
      var name := names[k];
      var m := MatchPrequant(inv, config, name);
      if m.Some? {
        fused := fused[name := m.value.spec];
        consumed := consumed + set s | s in m.value.used + m.value.ignored;
      }
    }
  }

  method PlanPackedPart(g: map<string, seq<SourceTensor>>, fused: map<string, BlobSpec>, policy: Policy)
    returns (r: Result<seq<BlobSpec>, PlanError>)
    requires forall gp | gp in g :: g[gp] != []
    ensures r.Success? <==> AllPackedOrPlain(g, fused, policy)
    ensures r.Success? ==> r.value == PackedPart(g, fused, policy)
  {
    hide PackedOrPlain, SortedNames, Flatten;
    var sorted := SortedKeys(g.Keys);
    SortedNamesAre(g.Keys);
    var specs: seq<BlobSpec> := [];
    ghost var blobs: map<string, seq<BlobSpec>> :=
      map gp | gp in g && PackedOrPlain(gp, g[gp], fused, policy).Some? ::
        PackedOrPlain(gp, g[gp], fused, policy).value;
    NothingFlat(sorted[..0], blobs);
    for k := 0 to |sorted|
      invariant forall j | 0 <= j < k :: sorted[j] in blobs
      invariant specs == Flatten(sorted[..k], blobs)
    {
      var gp := sorted[k];
      assert gp in g;
      var planned := PlanPackedOrPlain(gp, g[gp], fused, policy);
      if planned.Failure? { return Failure(planned.error); }
      FlattenTo(sorted, k, blobs);
      specs := specs + planned.value;
    }
    assert sorted[..|sorted|] == sorted;
    forall gp | gp in g ensures gp in blobs { assert gp in sorted; }
    assert blobs == PackedBlobs(g, fused, policy);
    r := Success(specs);
  }

  /** A blob for every name that is not consumed: the fused weight, or the tensor itself. */
  method PlanRest(inv: Inventory, names: seq<string>, fused: map<string, BlobSpec>, consumed: set<string>,
          ghost sel: Selection)
    returns (specs: seq<BlobSpec>)
    requires Known(inv, names) && forall n | n in names :: n in consumed <==> sel(n).Some?
    ensures specs == Flatten(Ungrouped(sel, names), RestBlobs(inv, fused))
  {
    ghost var blobs := RestBlobs(inv, fused);
    specs := [];
    for k := 0 to |names|
      invariant specs == Flatten(Ungrouped(sel, names[..k]), blobs)
    {
      var name := names[k];
      assert name in names && names[..k + 1][..k] == names[..k];
      if name !in consumed {
        FlattenNext(Ungrouped(sel, names[..k]), name, blobs);
        specs := specs + [RestBlob(inv, fused, name)];
      }
    }
    assert names[..|names|] == names;
  }

  /** The experts of each group, and their names. */
  method GroupExperts(layer: string -> bool, inv: Inventory, config: Config, names: seq<string>)
    returns (groups: map<string, seq<SourceTensor>>, experts: set<string>)
    requires Known(inv, names)
    ensures groups == Grouping(FlintExperts(layer, config), inv, names)
    ensures forall n | n in names :: n in experts <==> FlintExperts(layer, config)(n).Some?
  {
    hide PerExpertGroup;
    groups, experts := map[], {};
    if config.flint {
      for k := 0 to |names|
        invariant groups == Grouping(FlintExperts(layer, config), inv, names[..k])
        invariant forall n :: n in experts <==> n in names[..k] && FlintExperts(layer, config)(n).Some?
      {
        var name := names[k];
        assert names[..k + 1][..k] == names[..k] && names[..k + 1] == names[..k] + [name];
        var gp := PerExpertGroup(layer, name);
        if gp.Some? && HasSuffix(name, ".weight") {
          groups := AddTo(groups, gp.value, inv[name]);
          experts := experts + {name};
        }
      }
      assert names[..|names|] == names;
    } else {
      NoExperts(layer, inv, config, names);
    }
  }

  lemma {:induction false} NoExperts(layer: string -> bool, inv: Inventory, config: Config, names: seq<string>)
    requires Known(inv, names) && !config.flint
    ensures Grouping(FlintExperts(layer, config), inv, names) == map[]
    decreases |names|
  {
    if names != [] { NoExperts(layer, inv, config, names[..|names| - 1]); }
  }

  method PlanPrequantized(layer: string -> bool, inv: Inventory, config: Config, policy: Policy)
    returns (r: Result<seq<BlobSpec>, PlanError>)
    requires WellKeyed(inv)
    ensures r.Success? <==> PrequantPlanned(layer, inv, config, policy).Some?
    ensures r.Success? ==> r.value == PrequantPlanned(layer, inv, config, policy).value
  {
    hide SortedNames, FusedBlobs, TakenNames, AllPackedOrPlain, PackedPart, RestBlobs, FlintExperts;
    var names := SortedKeys(inv.Keys);
    SortedNamesAre(inv.Keys);
    var matched, consumed := MatchAll(inv, config, names);
    var fused := WithEmbedding(config, matched);
    if fused.None? { return Failure(EmbeddingBits); }
    var groups, experts := GroupExperts(layer, inv, config, names);
    GroupingIs(FlintExperts(layer, config), inv, names);
    var packed := PlanPackedPart(groups, fused.value, policy);
    if packed.Failure? { return Failure(packed.error); }
    var rest := PlanRest(inv, names, fused.value, consumed + experts, Taken(layer, inv, config));
    r := Success(packed.value + rest);
  }
}
