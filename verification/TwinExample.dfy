/** A Flint model whose plan uses one scale twice: its only expert has scales, and is
    also shipped packed. */
module TwinExample {
  import opened Results
  import opened PlanNames
  import opened PlanTypes
  import opened PlanExperts
  import opened PlanGroups
  import opened PlanCheck
  import opened PrequantMatch
  import opened PrequantPlan
  import KeyOrder
  import LayerNames
  import PrequantUse

  const GROUP := "layers.0.mlp.experts"
  const BASE := "layers.0.mlp.experts.0.u"
  const PLAIN := "layers.0.mlp.experts.0.u.weight"
  const PACKED := "layers.0.mlp.experts.0.u.weight_packed"
  const SCALE := "layers.0.mlp.experts.0.u.weight_scale"
  const GLOBAL := "layers.0.mlp.experts.0.u.weight_scale_2"

  const W := SourceTensor(PLAIN, "U8", [2, 8])
  const P := SourceTensor(PACKED, "U8", [2, 8])
  const S := SourceTensor(SCALE, "U8", [2, 1])
  const G := SourceTensor(GLOBAL, "F32", [1])

  const INV: Inventory := map[PLAIN := W, PACKED := P, SCALE := S, GLOBAL := G]

  const CONFIG := Config(true, map[], None)

  const LAYER := LayerNames.LayerPrefix

  lemma Names4()
    ensures PLAIN == BASE + WEIGHT && PACKED == BASE + ".weight_packed"
    ensures SCALE == BASE + ".weight_scale" && GLOBAL == BASE + ".weight_scale_2"
    ensures |PLAIN| == 31 && |PACKED| == 38 && |SCALE| == 37 && |GLOBAL| == 39 && |BASE| == 24
    ensures WellKeyed(INV)
  {}

  lemma NoWeights()
    ensures !HasSuffix(PACKED, WEIGHT) && !HasSuffix(SCALE, WEIGHT) && !HasSuffix(GLOBAL, WEIGHT)
    ensures !HasSuffix(SCALE, ".weight_packed") && !HasSuffix(GLOBAL, ".weight_packed") &&
              !HasSuffix(PLAIN, ".weight_packed")
  {
    assert PACKED[37] == 'd' && SCALE[36] == 'e' && GLOBAL[38] == '2' && PLAIN[30] == 't';
  }

  lemma LayerIs()
    ensures LayerNames.LayerPrefix("layers.0")
  {
    assert LayerNames.LEADS[0] + "layers." == "layers.";
    assert LayerNames.Numbered(LayerNames.LEADS[0] + "layers.", "layers.0");
  }

  lemma NameParts()
    ensures GROUP == "layers.0" + MARKERS[0] && GROUP + "." <= PLAIN && HasSuffix(PLAIN, WEIGHT)
    ensures PLAIN == (GROUP + ".") + ("0" + "." + "u.weight")
  {
    assert GROUP + "." == PLAIN[..21];
    assert PLAIN[21..] == "0" + "." + "u.weight" && PLAIN[24..] == WEIGHT;
  }

  /** The expert's name is one that the regular expression of layer prefixes admits. */
  lemma NameIs()
    ensures LayerNames.InGroup(PLAIN, GROUP) && HasSuffix(PLAIN, WEIGHT)
  {
    hide Atoi, Itoa, LayerNames.LayerPrefix, HasSuffix;
    LayerIs();
    ZeroIs();
    NameParts();
    assert LayerNames.Expert(PLAIN, GROUP, "0", "u.weight");
  }

  lemma ExpertIs()
    ensures PerExpertGroup(LAYER, PLAIN) == Some(GROUP) && ParseExpertTensor(GROUP, PLAIN) == Some((0, "u"))
  {
    hide PerExpertGroup, LayerNames.InGroup, Itoa;
    NameIs();
    LayerNames.PerExpertGroupIs(PLAIN, GROUP);
    ZeroIs();
    ParseIsName(GROUP, PLAIN, 0, "u");
    assert ExpertName(GROUP, 0, "u") == PLAIN;
  }

  lemma ZeroIs()
    ensures Itoa(0) == "0" && Atoi("0") == Some(0)
  {
    AtoiItoa(0);
  }

  // ---- The matches --------------------------------------------------------

  lemma Absent()
    ensures BASE + ".scales" !in INV && BASE + ".weight_global_scale" !in INV
  {
    assert (BASE + ".scales")[30] == 's' && PLAIN[30] == 't';
    assert |BASE + ".scales"| == 31 && |BASE + ".weight_global_scale"| == 44;
    Names4();
  }

  lemma Dtypes()
    ensures !MatchesDtype("U8", MODELOPT_MXFP8.weightDtypes) && MatchesDtype("U8", MODELOPT_NVFP4.weightDtypes)
    ensures Upper("U8") == "U8" && !IsE4M3("U8")
  {
    assert |Upper("U8")| == 2 && |Upper("F8_E4M3")| == 7 && |Upper("F8_E4M3FN")| == 9;
    assert Upper("U8") == "U8";
    assert "U8" in MODELOPT_NVFP4.weightDtypes;
  }

  lemma WeightMatch()
    ensures MatchPrequant(INV, CONFIG, PLAIN) == MatchWith(MODELOPT_NVFP4, INV, CONFIG, PLAIN)
    ensures MatchWith(MODELOPT_NVFP4, INV, CONFIG, PLAIN).Some?
    ensures var f := MatchWith(MODELOPT_NVFP4, INV, CONFIG, PLAIN).value;
            f.used == [SCALE, GLOBAL] &&
            f.spec.tensors == [WeightSpec(MODELOPT_NVFP4, PLAIN, W), ScaleSpec(MODELOPT_NVFP4, PLAIN + ".scale", S),
                               GlobalSpec(MODELOPT_NVFP4, PLAIN + ".global_scale", G)] &&
            f.spec.metadata == map["quant_type" := "nvfp4"]
  {
    hide HasSuffix, WeightSpec, ScaleSpec, GlobalSpec, Ignored, MatchesDtype;
    Names4();
    NoWeights();
    Absent();
    Dtypes();
    assert CutSuffix(PLAIN, ".weight") == Some(BASE) by { SuffixOf(PLAIN, ".weight"); NameIs(); }
    assert MatchesDtype(S.dtype, []) by { Anything(S.dtype); }
    var p1, p2, p3 := PATTERNS[1..], PATTERNS[1..][1..], PATTERNS[1..][1..][1..];
    assert PATTERNS[0] == MLX && p1[0] == COMPRESSED_NVFP4 && p2[0] == MODELOPT_MXFP8 && p3[0] == MODELOPT_NVFP4;
    assert MatchWith(MLX, INV, CONFIG, PLAIN).None?;
    assert MatchWith(COMPRESSED_NVFP4, INV, CONFIG, PLAIN).None?;
    assert MatchWith(MODELOPT_MXFP8, INV, CONFIG, PLAIN).None?;
    assert MatchWith(MODELOPT_NVFP4, INV, CONFIG, PLAIN).Some?;
    assert MatchFirst(p3, INV, CONFIG, PLAIN) == MatchWith(MODELOPT_NVFP4, INV, CONFIG, PLAIN);
    assert MatchFirst(p2, INV, CONFIG, PLAIN) == MatchFirst(p3, INV, CONFIG, PLAIN);
    assert MatchFirst(p1, INV, CONFIG, PLAIN) == MatchFirst(p2, INV, CONFIG, PLAIN);
  }

  lemma Anything(dtype: string)
    ensures MatchesDtype(dtype, [])
  {}

  lemma PackedMatch()
    ensures UsedBy(INV, CONFIG, PACKED, SCALE)
    ensures var f := MatchPrequant(INV, CONFIG, PACKED).value;
            f.spec.name == PLAIN && |f.spec.tensors| == 2 &&
            f.spec.tensors[0].name == PLAIN && f.spec.tensors[1].name == PLAIN + ".scale"
  {
    hide HasSuffix, GlobalSpec, Ignored, MatchesDtype, Metadata;
    Names4();
    Absent();
    PrequantUse.PackedIsMatched(INV, CONFIG, BASE);
    PrequantUse.MatchedBy(PATTERNS, INV, CONFIG, PACKED);
    MatchIs(INV, CONFIG, PACKED);
    var f := MatchPrequant(INV, CONFIG, PACKED).value;
    SuffixesSplit();
    PatternSuffixes(f.pattern);
    SplitsOnce(BASE, ".weight_packed", f.base, f.pattern.weightSuffix);
    assert f.pattern == COMPRESSED_NVFP4;
  }

  // ---- The plan -----------------------------------------------------------

  const STACKED := "layers.0.mlp.experts.u.weight"

  function Anyhow(name: string, shape: seq<nat>, quantize: string): string { "" }

  function Packed(): TensorSpec { Stack(GROUP, "u", [W], "", Anyhow) }

  lemma StackedIs()
    ensures Packed().name == STACKED && Packed().sources == [W] && Packed().quantize == ""
  {
    assert GROUP + "." + "u" + WEIGHT == STACKED;
  }

  /** The only expert, filed under its projection and index. */
  lemma Filing()
    ensures ByProjection(GROUP, [PLAIN], [W]) == Some(map["u" := map[0 := W]])
  {
    hide ParseExpertTensor;
    ExpertIs();
    var none: seq<string>, nothing: seq<SourceTensor> := [], [];
    assert ByProjection(GROUP, none, nothing) == Some(map[]);
    assert [PLAIN][..0] == none && [W][..0] == nothing;
    var m: map<string, ByIndex<SourceTensor>> := map[];
    var empty: ByIndex<SourceTensor> := map[];
    assert empty[0 := W] == map[0 := W];
    assert m["u" := map[0 := W]] == map["u" := map[0 := W]];
  }

  lemma OneExpert()
    ensures Contiguous<SourceTensor>(map[0 := W])
  {
    var m: ByIndex<SourceTensor> := map[0 := W];
    assert |m| == 1;
  }

  lemma OneName(x: string)
    ensures SortedNames({x}) == [x]
  {
    SortedNamesAre({x});
    var s := SortedNames({x});
    KeyOrder.SortedKeysAre(CharRank, {x});
    assert |s| == 1 && s[0] in s;
  }

  lemma GroupPlan()
    ensures ExpertGroupPlan(GROUP, [W], "", Anyhow) == Some([BlobSpec(GROUP, [Packed()], map[])])
  {
    hide ByProjection, Stack, SortedNames, Contiguous;
    Filing();
    OneExpert();
    OneName("u");
    StackedIs();
    assert Names([W]) == [PLAIN];
    var m: map<string, ByIndex<SourceTensor>> := map["u" := map[0 := W]];
    assert m["u"] == map[0 := W] && |m["u"]| == 1;
    assert SameExperts(m);
    assert InOrder(m["u"]) == [W];
    assert m.Keys == {"u"};
    var stacks := Stacks(GROUP, ["u"], m, "", Anyhow);
    assert stacks == [Packed()];
  }

  /** The weight and its packed twin are both fused, the scales are not weights. */
  lemma FusedAre()
    ensures FusedBlobs(INV, CONFIG).Keys == {PLAIN, PACKED}
    ensures WithEmbedding(CONFIG, FusedBlobs(INV, CONFIG)) == Some(FusedBlobs(INV, CONFIG))
  {
    hide MatchPrequant, MatchWith, HasSuffix;
    Names4();
    WeightMatch();
    PackedMatch();
    assert UsedBy(INV, CONFIG, PLAIN, SCALE) && UsedBy(INV, CONFIG, PLAIN, GLOBAL);
    CompanionIsNoWeight(INV, CONFIG, PLAIN, SCALE);
    CompanionIsNoWeight(INV, CONFIG, PLAIN, GLOBAL);
    assert |EMBEDDING| == 25;
  }

  /** The scales stay beside the weights. */
  lemma TakenIs()
    ensures TakenNames(INV, CONFIG) * INV.Keys == {SCALE, GLOBAL}
  {
    hide MatchPrequant, MatchWith, TakenNames;
    Names4();
    WeightMatch();
    PackedMatch();
    assert UsedBy(INV, CONFIG, PLAIN, SCALE) && UsedBy(INV, CONFIG, PLAIN, GLOBAL);
    PrequantUse.TakenAre(INV, CONFIG, SCALE);
    PrequantUse.TakenAre(INV, CONFIG, GLOBAL);
    PrequantUse.UserStays(INV, CONFIG, PLAIN, SCALE);
    PrequantUse.UserStays(INV, CONFIG, PACKED, SCALE);
  }

  lemma ExpertPart()
    ensures PartOf(W, FusedBlobs(INV, CONFIG)) == Some(Part([2, 2], S, G, map["quant_type" := "nvfp4"]))
  {
    hide MatchPrequant, MatchWith, FusedBlobs;
    WeightMatch();
    FusedAre();
    Dtypes();
    var part := FusedBlobs(INV, CONFIG)[PLAIN];
    assert part == MatchPrequant(INV, CONFIG, PLAIN).value.spec by { FusedIs(PLAIN); }
  }

  lemma FusedIs(x: string)
    requires x in FusedBlobs(INV, CONFIG)
    ensures x in INV && FusedBlobs(INV, CONFIG)[x] == MatchPrequant(INV, CONFIG, x).value.spec
  {}

  /** The bank: packed words, scales and global scales of the one expert. */
  lemma Bank()
    ensures var r := PackedOrPlain(GROUP, [W], FusedBlobs(INV, CONFIG), Anyhow);
            r.Some? && BlobNames(r.value) == [GROUP] &&
            TensorNames(r.value) == [STACKED, STACKED + ".scale", STACKED + ".global_scale"]
  {
    hide MatchPrequant, FusedBlobs, PartOf, ExpertGroupPlan, Packed;
    var fused := FusedBlobs(INV, CONFIG);
    FusedAre();
    ExpertPart();
    GroupPlan();
    StackedIs();
    var stacks, metadata := [Packed()], map["quant_type" := "nvfp4"];
    assert W in [W];
    assert Parts([W], fused) == [PartOf(W, fused).value];
    assert fused[PLAIN].metadata == metadata by { FusedIs(PLAIN); WeightMatch(); }
    assert BankMetadata(stacks, fused) == metadata;
    assert AllBanks(stacks, fused, metadata);
    var bank, before := BankTensors(stacks, fused, metadata), stacks[..0];
    assert before == [] && AllBanks(before, fused, metadata) && BankTensors(before, fused, metadata) == [];
    assert bank == [] + BankOf(Packed(), Parts([W], fused));
    var plan := BankPlan(GROUP, [W], fused, Anyhow).value;
    assert plan == [BlobSpec(GROUP, bank, metadata)];
    assert plan[..0] == [] && TensorNames([]) == [];
    assert NamesIn(bank) == [STACKED, STACKED + ".scale", STACKED + ".global_scale"];
  }

  lemma {:induction false} Grouped(names: seq<string>)
    requires Known(INV, names) && DistinctNames(names)
    ensures Grouping(FlintExperts(LAYER, CONFIG), INV, names) == if PLAIN in names then map[GROUP := [W]] else map[]
    decreases |names|
  {
    hide PerExpertGroup, HasSuffix;
    if names != [] {
      var front, last := names[..|names| - 1], names[|names| - 1];
      assert names == front + [last] && last !in front;
      Grouped(front);
      ExpertIs();
      NoWeights();
      assert last in INV;
      var none: seq<SourceTensor> := [];
      assert none + [W] == [W];
    }
  }

  lemma TakenAre4()
    ensures var taken := Taken(LAYER, INV, CONFIG);
            taken(PLAIN).Some? && taken(SCALE).Some? && taken(GLOBAL).Some? && taken(PACKED).None?
  {
    hide PerExpertGroup, HasSuffix, TakenNames, FusedBlobs;
    ExpertIs();
    NoWeights();
    TakenIs();
    Names4();
    assert FlintExperts(LAYER, CONFIG)(PLAIN).Some? && FlintExperts(LAYER, CONFIG)(PACKED).None?;
    assert INV.Keys - {SCALE, GLOBAL} == {PLAIN, PACKED};
    assert forall n | n in INV :: n in TakenNames(INV, CONFIG) <==> n in {SCALE, GLOBAL};
    assert PLAIN in {PLAIN, PACKED} && PACKED in {PLAIN, PACKED};
  }

  /** Only the packed twin gets a blob of its own. */
  lemma Rest(names: seq<string>)
    requires DistinctNames(names) && forall n :: n in names <==> n in INV
    ensures Ungrouped(Taken(LAYER, INV, CONFIG), names) == [PACKED]
  {
    hide Taken, Ungrouped;
    TakenAre4();
    UngroupedAre(Taken(LAYER, INV, CONFIG), names);
    var rest := Ungrouped(Taken(LAYER, INV, CONFIG), names);
    assert forall n | n in INV :: n == PLAIN || n == SCALE || n == GLOBAL || n == PACKED;
    assert forall n :: n in rest <==> n == PACKED;
    OnlyOne(rest, PACKED);
  }

  lemma OnlyOne(names: seq<string>, x: string)
    requires DistinctNames(names) && forall n :: n in names <==> n == x
    ensures names == [x]
  {
    assert x in names;
    if |names| > 1 { AllSame(names, x); }
    assert names[0] in names;
  }

  lemma AllSame(names: seq<string>, x: string)
    requires |names| > 1 && forall n | n in names :: n == x
    ensures !DistinctNames(names)
  {
    assert names[0] in names && names[1] in names && names[0] == names[1];
  }

  lemma OneFlat(x: string, blobs: map<string, seq<BlobSpec>>)
    requires x in blobs
    ensures Flatten([x], blobs) == blobs[x]
  {
    var none: seq<string> := [];
    assert [x][..0] == none;
    FlattenNext(none, x, blobs);
    assert none + [x] == [x];
  }

  lemma NoClash(bank: seq<BlobSpec>, b: BlobSpec)
    requires BlobNames(bank) == [GROUP] && TensorNames(bank) == [STACKED, STACKED + ".scale", STACKED + ".global_scale"]
    requires b.name == PLAIN && |b.tensors| == 2 && b.tensors[0].name == PLAIN && b.tensors[1].name == PLAIN + ".scale"
    ensures NoCollisions(bank + [b])
  {
    var specs := bank + [b];
    assert specs[..|bank|] == bank;
    assert NamesIn(b.tensors) == [PLAIN, PLAIN + ".scale"];
    var ts := TensorNames(specs);
    assert ts == [STACKED, STACKED + ".scale", STACKED + ".global_scale", PLAIN, PLAIN + ".scale"];
    assert |ts[0]| == 29 && |ts[1]| == 35 && |ts[2]| == 42 && |ts[3]| == 31 && |ts[4]| == 37;
    assert BlobNames(specs) == [GROUP, PLAIN] && |GROUP| == 20 && |PLAIN| == 31;
  }

  lemma PlanIs() returns (specs: seq<BlobSpec>)
    ensures PrequantPlanned(LAYER, INV, CONFIG, Anyhow) == Some(specs) && NoCollisions(specs)
  {
    hide MatchPrequant, FusedBlobs, TakenNames, PackedOrPlain, SortedNames, Grouping, Ungrouped, PerExpertGroup,
         BlobNames, TensorNames,
         RestBlobs, Flatten, Taken, FlintExperts, NoCollisions, DistinctNames, WithEmbedding;
    SortedNamesAre(INV.Keys);
    var names, fused := SortedNames(INV.Keys), FusedBlobs(INV, CONFIG);
    FusedAre();
    Grouped(names);
    Rest(names);
    Bank();
    OneName(GROUP);
    var g := Grouping(FlintExperts(LAYER, CONFIG), INV, names);
    assert g == map[GROUP := [W]] && g.Keys == {GROUP} && AllPackedOrPlain(g, fused, Anyhow);
    var bank := PackedOrPlain(GROUP, [W], fused, Anyhow).value;
    OneFlat(GROUP, PackedBlobs(g, fused, Anyhow));
    PackedRest(fused);
    specs := bank + [fused[PACKED]];
    NoClash(bank, fused[PACKED]) by { FusedIs(PACKED); PackedMatch(); }
  }

  lemma PackedRest(fused: map<string, BlobSpec>)
    requires PACKED in fused
    ensures PACKED in RestBlobs(INV, fused) && Flatten([PACKED], RestBlobs(INV, fused)) == [fused[PACKED]]
  {
    Names4();
    OneFlat(PACKED, RestBlobs(INV, fused));
  }

  lemma Twice()
    ensures Own(INV, S) && PrequantUse.UseCount(LAYER, INV, CONFIG, S) == 2
  {
    hide MatchPrequant, PerExpertGroup, HasSuffix, PrequantUse.Dropped;
    Names4();
    WeightMatch();
    PackedMatch();
    ExpertIs();
    NoWeights();
    assert UsedBy(INV, CONFIG, PLAIN, SCALE) && UsedBy(INV, CONFIG, PACKED, SCALE);
    assert FlintExperts(LAYER, CONFIG)(PLAIN).Some? && FlintExperts(LAYER, CONFIG)(PACKED).None?;
    assert PrequantUse.Doubled(LAYER, INV, CONFIG, SCALE);
    PrequantUse.DoubledStays(LAYER, INV, CONFIG, SCALE);
  }

  /** The plan succeeds and no output names clash, but the expert's scale is a source of
      two output positions. */
  lemma ScaleUsedTwice()
    ensures WellKeyed(INV) && PrequantPlanned(LAYER, INV, CONFIG, Anyhow).Some?
    ensures NoCollisions(PrequantPlanned(LAYER, INV, CONFIG, Anyhow).value)
    ensures S in INV.Values && Uses(PrequantPlanned(LAYER, INV, CONFIG, Anyhow).value, S) == 2
  {
    hide PrequantPlanned, NoCollisions, PrequantUse.UseCount;
    Names4();
    var specs := PlanIs();
    Twice();
    PrequantUse.PrequantUses(LAYER, INV, CONFIG, Anyhow, S);
    assert INV[SCALE] == S;
  }
}
