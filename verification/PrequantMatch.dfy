/** matchPrequant of create/prequant.go: which tensors a quantized weight is fused
    with. */
module PrequantMatch {
  import opened Results
  import opened PlanNames
  import opened PlanTypes

  /** How one producer names a quantized weight and its companions. */
  datatype Pattern = Pattern(
    weightSuffix: string, weightDtypes: seq<string>, scaleDtypes: seq<string>, repackWeight: bool,
    scaleSuffix: string, scaleRelabelU8: bool, biasSuffix: string, globalSuffix: string, globalReciprocal: bool,
    ignoreSuffixes: seq<string>, forceQuantType: string, defaultGroupSize: string)

  const INPUTS := [".input_scale", ".input_global_scale"]

  const MLX := Pattern(".weight", [], [], false, ".scales", false, ".biases", "", false, [], "", "")

  const COMPRESSED_NVFP4 := Pattern(
    ".weight_packed", [], [], true, ".weight_scale", true, "", ".weight_global_scale", true, INPUTS, "nvfp4", "16")

  const MODELOPT_MXFP8 := Pattern(
    ".weight", ["F8_E4M3", "F8_E4M3FN"], ["U8"], true, ".weight_scale", false, "", "", false, [], "mxfp8", "32")

  const MODELOPT_NVFP4 := Pattern(
    ".weight", ["U8", "U32"], [], true, ".weight_scale", true, "", ".weight_scale_2", false, INPUTS, "nvfp4", "")

  const PATTERNS := [MLX, COMPRESSED_NVFP4, MODELOPT_MXFP8, MODELOPT_NVFP4]

  /** What the planner reads of the model's config: whether it is a Flint model, its
      quantization metadata, and the export's embedding bits, if they parse. */
  datatype Config = Config(flint: bool, quantMetadata: map<string, string>, embeddingBits: Option<int>)

  /** A weight fused with its companions: the blob, the companions it stores, and
      the activation scales it drops. */
  datatype Fused = Fused(base: string, pattern: Pattern, spec: BlobSpec, used: seq<string>, ignored: seq<string>)

  predicate MatchesDtype(dtype: string, allowed: seq<string>) {
    allowed == [] || exists want | want in allowed :: Upper(dtype) == Upper(want)
  }

  function F32ScaleTransform(t: SourceTensor): Transform {
    if forall d | d in t.shape :: d == 1 then ScalarF32 else F32
  }

  function Metadata(config: Config, p: Pattern): map<string, string> {
    var typed := if p.forceQuantType != "" then config.quantMetadata["quant_type" := p.forceQuantType]
      else config.quantMetadata;
    if p.defaultGroupSize != "" && "group_size" !in typed then typed["group_size" := p.defaultGroupSize] else typed
  }

  function WeightSpec(p: Pattern, name: string, weight: SourceTensor): TensorSpec {
    if p.repackWeight && |weight.shape| == 2 && (Upper(weight.dtype) == "U8" || IsE4M3(weight.dtype)) then
      TensorSpec(name, [weight], if IsE4M3(weight.dtype) then RepackFP8 else RepackFP4, "", "U32",
                 Some([weight.shape[0], weight.shape[1] / 4]))
    else TensorSpec(name, [weight], Keep, "", "", None)
  }

  function ScaleSpec(p: Pattern, name: string, scale: SourceTensor): TensorSpec {
    if p.scaleRelabelU8 && IsE4M3(scale.dtype) then TensorSpec(name, [scale], RelabelU8, "", "U8", None)
    else TensorSpec(name, [scale], Keep, "", "", None)
  }

  function GlobalSpec(p: Pattern, name: string, global: SourceTensor): TensorSpec {
    TensorSpec(name, [global], if p.globalReciprocal then ReciprocalF32 else F32ScaleTransform(global), "", "", None)
  }

  /** The companion of this suffix, if the pattern has one and the model ships it. */
  function Companion(inv: Inventory, base: string, suffix: string): (s: seq<string>)
    ensures |s| <= 1 && forall x | x in s :: x == base + suffix && x in inv
  {
    if suffix != "" && base + suffix in inv then [base + suffix] else []
  }

  function Ignored(inv: Inventory, base: string, suffixes: seq<string>): seq<string> {
    if suffixes == [] then [] else Companion(inv, base, suffixes[0]) + Ignored(inv, base, suffixes[1..])
  }

  /** The weight fused as this pattern says, if it is one of the producer's. */
  function MatchWith(p: Pattern, inv: Inventory, config: Config, name: string): Option<Fused>
    requires name in inv
  {
    match CutSuffix(name, p.weightSuffix)
    case None => None
    case Some(base) =>
      if base + p.scaleSuffix !in inv then None
      else if !MatchesDtype(inv[name].dtype, p.weightDtypes) then None
      else if !MatchesDtype(inv[base + p.scaleSuffix].dtype, p.scaleDtypes) then None
      else
        var scale := base + p.scaleSuffix;
        var bias, global := Companion(inv, base, p.biasSuffix), Companion(inv, base, p.globalSuffix);
        var out := base + WEIGHT;
        var tensors :=
          [WeightSpec(p, out, inv[name]), ScaleSpec(p, out + ".scale", inv[scale])] +
          (if bias == [] then [] else [TensorSpec(out + ".bias", [inv[bias[0]]], Keep, "", "", None)]) +
          (if global == [] then [] else [GlobalSpec(p, out + ".global_scale", inv[global[0]])]);
        Some(Fused(base, p, BlobSpec(out, tensors, Metadata(config, p)), [scale] + bias + global,
          Ignored(inv, base, p.ignoreSuffixes)))
  }

  function MatchFirst(ps: seq<Pattern>, inv: Inventory, config: Config, name: string): Option<Fused>
    requires name in inv
  {
    if ps == [] then None
    else
      var m := MatchWith(ps[0], inv, config, name);
      if m.Some? then m else MatchFirst(ps[1..], inv, config, name)
  }

  /** The first pattern that fits decides. */
  function MatchPrequant(inv: Inventory, config: Config, name: string): Option<Fused>
    requires name in inv
  {
    MatchFirst(PATTERNS, inv, config, name)
  }

  // ---- Suffixes -----------------------------------------------------------

  /** A dot and then none. */
  predicate DotTail(c: string) {
    c != "" && c[0] == '.' && forall k | 0 < k < |c| :: c[k] != '.'
  }

  lemma SplitsAligned(b: string, c: string, b': string, c': string)
    requires DotTail(c) && DotTail(c') && b + c == b' + c' && |c| <= |c'|
    ensures b == b' && c == c'
  {
    var s, k := b + c, |c'| - |c|;
    assert s[|b|] == c[0] && s[|b'| + k] == c'[k] && |b| == |b'| + k;
    assert b == s[..|b|] && b' == s[..|b'|] && c == s[|b|..] && c' == s[|b'|..];
  }

  /** A name splits in one way at its last dot. */
  lemma SplitsOnce(b: string, c: string, b': string, c': string)
    requires DotTail(c) && DotTail(c') && b + c == b' + c'
    ensures b == b' && c == c'
  {
    if |c| <= |c'| { SplitsAligned(b, c, b', c'); } else { SplitsAligned(b', c', b, c); }
  }

  const USED := {".scales", ".biases", ".weight_scale", ".weight_global_scale", ".weight_scale_2"}

  const DROPPED := {".input_scale", ".input_global_scale"}

  const WEIGHTS := {".weight", ".weight_packed"}

  lemma UsedTails()
    ensures forall c | c in USED :: DotTail(c)
  {}

  lemma OtherTails()
    ensures forall c | c in DROPPED + WEIGHTS :: DotTail(c)
  {}

  lemma SuffixesSplit()
    ensures forall c | c in USED + DROPPED + WEIGHTS :: DotTail(c)
    ensures USED !! DROPPED && (USED + DROPPED) !! WEIGHTS
  {
    hide DotTail;
    UsedTails();
    OtherTails();
  }

  // ---- What a match fuses -------------------------------------------------

  /** s is this base with one of these suffixes. */
  ghost predicate Suffixed(base: string, suffixes: set<string>, s: string) {
    exists c :: c in suffixes && s == base + c
  }

  /** A match stores the weight and then each used companion, one a tensor, under
      the weight's output name. */
  ghost predicate Fuses(inv: Inventory, name: string, f: Fused)
    requires name in inv
  {
    f.pattern in PATTERNS && name == f.base + f.pattern.weightSuffix && f.spec.name == f.base + WEIGHT &&
    |f.spec.tensors| == 1 + |f.used| && f.spec.tensors[0].sources == [inv[name]] &&
    (forall k | 0 <= k < |f.used| :: f.used[k] in inv && f.spec.tensors[k + 1].sources == [inv[f.used[k]]])
  }

  /** Its companions are the base with companion suffixes, each once. */
  ghost predicate Companions(f: Fused) {
    (forall s | s in f.used :: Suffixed(f.base, USED, s)) &&
    (forall s | s in f.ignored :: Suffixed(f.base, DROPPED, s)) &&
    DistinctNames(f.used)
  }

  lemma SuffixOf(name: string, suffix: string)
    ensures CutSuffix(name, suffix).Some? <==> HasSuffix(name, suffix)
    ensures CutSuffix(name, suffix).Some? ==> name == CutSuffix(name, suffix).value + suffix
  {}

  lemma MatchWithFuses(p: Pattern, inv: Inventory, config: Config, name: string)
    requires name in inv && p in PATTERNS
    ensures MatchWith(p, inv, config, name).Some? ==> Fuses(inv, name, MatchWith(p, inv, config, name).value)
  {
    hide Metadata, MatchesDtype, HasSuffix, Ignored;
    SuffixOf(name, p.weightSuffix);
  }

  lemma {:induction false} IgnoredAre(inv: Inventory, base: string, suffixes: seq<string>)
    requires forall c | c in suffixes :: c in DROPPED
    ensures forall s | s in Ignored(inv, base, suffixes) :: Suffixed(base, DROPPED, s) && s in inv
  {
    if suffixes != [] { IgnoredAre(inv, base, suffixes[1..]); }
  }

  /** The companion suffixes a pattern stores: scale, bias and global scale. */
  lemma PatternSuffixes(p: Pattern)
    requires p in PATTERNS
    ensures p.weightSuffix in WEIGHTS && p.scaleSuffix in USED
    ensures (p.biasSuffix == "" || p.biasSuffix in USED) && (p.globalSuffix == "" || p.globalSuffix in USED)
    ensures p.biasSuffix == "" || p.globalSuffix == ""
    ensures p.scaleSuffix != p.biasSuffix && p.scaleSuffix != p.globalSuffix
    ensures forall c | c in p.ignoreSuffixes :: c in DROPPED
  {}

  lemma MatchWithCompanions(p: Pattern, inv: Inventory, config: Config, name: string)
    requires name in inv && p in PATTERNS
    ensures MatchWith(p, inv, config, name).Some? ==> Companions(MatchWith(p, inv, config, name).value)
  {
    hide Metadata, MatchesDtype, CutSuffix, Ignored, WeightSpec, ScaleSpec, GlobalSpec;
    var m := MatchWith(p, inv, config, name);
    if m.Some? {
      var f := m.value;
      PatternSuffixes(p);
      IgnoredAre(inv, f.base, p.ignoreSuffixes);
      assert f.used[0] == f.base + p.scaleSuffix;
      if |f.used| > 1 {
        var other := if Companion(inv, f.base, p.biasSuffix) != [] then p.biasSuffix else p.globalSuffix;
        assert |f.used| == 2 && f.used[1] == f.base + other;
        SuffixesSplit();
        if f.used[0] == f.used[1] { SplitsOnce(f.base, p.scaleSuffix, f.base, other); }
        assert Suffixed(f.base, USED, f.used[1]);
      }
      assert Suffixed(f.base, USED, f.used[0]);
    }
  }

  lemma {:induction false} MatchFuses(ps: seq<Pattern>, inv: Inventory, config: Config, name: string)
    requires name in inv && forall p | p in ps :: p in PATTERNS
    ensures var m := MatchFirst(ps, inv, config, name);
            m.Some? ==> Fuses(inv, name, m.value) && Companions(m.value)
  {
    hide MatchWith, Fuses, Companions;
    if ps != [] {
      MatchWithFuses(ps[0], inv, config, name);
      MatchWithCompanions(ps[0], inv, config, name);
      MatchFuses(ps[1..], inv, config, name);
    }
  }

  lemma MatchIs(inv: Inventory, config: Config, name: string)
    requires name in inv
    ensures var m := MatchPrequant(inv, config, name);
            m.Some? ==> Fuses(inv, name, m.value) && Companions(m.value)
  {
    hide MatchFirst, Fuses, Companions;
    MatchFuses(PATTERNS, inv, config, name);
  }

  // ---- Whose companion a name is ------------------------------------------

  /** s is stored with weight x. */
  ghost predicate UsedBy(inv: Inventory, config: Config, x: string, s: string) {
    x in inv && MatchPrequant(inv, config, x).Some? && s in MatchPrequant(inv, config, x).value.used
  }

  /** s is an activation scale dropped with weight x. */
  ghost predicate DroppedBy(inv: Inventory, config: Config, x: string, s: string) {
    x in inv && MatchPrequant(inv, config, x).Some? && s in MatchPrequant(inv, config, x).value.ignored
  }

  /** Both weights fuse under one output name. */
  lemma CompanionsShareBase(inv: Inventory, config: Config, x: string, y: string, s: string)
    requires UsedBy(inv, config, x, s) || DroppedBy(inv, config, x, s)
    requires UsedBy(inv, config, y, s) || DroppedBy(inv, config, y, s)
    ensures MatchPrequant(inv, config, x).value.base == MatchPrequant(inv, config, y).value.base
    ensures UsedBy(inv, config, x, s) ==> !DroppedBy(inv, config, y, s)
  {
    hide MatchPrequant, Fuses, DotTail;
    MatchIs(inv, config, x);
    MatchIs(inv, config, y);
    SuffixesSplit();
    var f, g := MatchPrequant(inv, config, x).value, MatchPrequant(inv, config, y).value;
    forall b, c, b', c' | c in USED + DROPPED && c' in USED + DROPPED && b + c == s && b' + c' == s
      ensures b == b' && c == c'
    {
      SplitsOnce(b, c, b', c');
    }
  }

  /** A companion is no weight itself: it is not matched and does not end in .weight. */
  lemma CompanionIsNoWeight(inv: Inventory, config: Config, x: string, s: string)
    requires UsedBy(inv, config, x, s) || DroppedBy(inv, config, x, s)
    ensures !HasSuffix(s, WEIGHT) && (s in inv ==> MatchPrequant(inv, config, s).None?)
  {
    hide MatchPrequant, DotTail, HasSuffix, CutSuffix;
    MatchIs(inv, config, x);
    SuffixesSplit();
    var f := MatchPrequant(inv, config, x).value;
    var c :| c in USED + DROPPED && s == f.base + c;
    forall w, b | w in WEIGHTS && s == b + w ensures false { SplitsOnce(f.base, c, b, w); }
    SuffixOf(s, WEIGHT);
    if s in inv {
      MatchIs(inv, config, s);
      var m := MatchPrequant(inv, config, s);
      if m.Some? { PatternSuffixes(m.value.pattern); }
    }
  }
}
