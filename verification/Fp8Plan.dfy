/** create/blockfp8.go: planning a block-FP8 model, whose FP8 weights are decoded
    with the block scale that accompanies each. */
module Fp8Plan {
  import opened Results
  import opened PlanNames
  import opened PlanTypes
  import opened PlanExperts
  import opened PlanGroups

  // ---- FP8 weights and their scales ---------------------------------------

  function ScaleFor(inv: Inventory, weight: string): (s: Option<string>)
    ensures s.Some? ==> s.value in inv
  {
    if weight + "_scale_inv" in inv then Some(weight + "_scale_inv")
    else if weight + "_scale" in inv then Some(weight + "_scale")
    else None
  }

  predicate IsFp8Weight(inv: Inventory, name: string) {
    name in inv && HasSuffix(name, WEIGHT) && IsE4M3(inv[name].dtype) && ScaleFor(inv, name).Some?
  }

  /** s is the block scale that w is decoded with. */
  predicate Scales(inv: Inventory, w: string, s: string) {
    IsFp8Weight(inv, w) && ScaleFor(inv, w) == Some(s)
  }

  lemma LastChar(s: string, suffix: string)
    requires suffix != "" && HasSuffix(s, suffix)
    ensures s != "" && s[|s| - 1] == suffix[|suffix| - 1]
  {
    assert s[|s| - |suffix|..][|suffix| - 1] == s[|s| - 1];
  }

  lemma Appended(w: string, suffix: string)
    ensures HasSuffix(w + suffix, suffix) && (w + suffix)[..|w + suffix| - |suffix|] == w
  {}

  /** A scale belongs to one weight, and is no weight itself. */
  lemma ScaleUnique(inv: Inventory, v: string, w: string, s: string)
    requires Scales(inv, v, s) && Scales(inv, w, s)
    ensures v == w && !HasSuffix(s, WEIGHT)
  {
    var long, short := "_scale_inv", "_scale";
    Appended(v, long);
    Appended(v, short);
    Appended(w, long);
    Appended(w, short);
    hide HasSuffix;
    if HasSuffix(s, long) { LastChar(s, long); }
    if HasSuffix(s, short) { LastChar(s, short); }
    if HasSuffix(s, WEIGHT) { LastChar(s, WEIGHT); }
  }

  /** The scales that are folded into their weights. */
  function Consumed(inv: Inventory): set<string> {
    set w | w in inv && IsFp8Weight(inv, w) :: ScaleFor(inv, w).value
  }

  // ---- Groups of FP8 experts ----------------------------------------------

  datatype Expert = Expert(weight: SourceTensor, scale: SourceTensor)

  predicate AllScaled(inv: Inventory, ts: seq<SourceTensor>) {
    forall t | t in ts :: ScaleFor(inv, t.name).Some?
  }

  function ScaleOf(inv: Inventory, name: string): SourceTensor
    requires ScaleFor(inv, name).Some?
  {
    inv[ScaleFor(inv, name).value]
  }

  function Experts(inv: Inventory, ts: seq<SourceTensor>): (es: seq<Expert>)
    requires AllScaled(inv, ts)
    ensures |es| == |ts| && forall k | 0 <= k < |ts| :: es[k] == Expert(ts[k], ScaleOf(inv, ts[k].name))
  {
    seq(|ts|, k requires 0 <= k < |ts| => assert ts[k] in ts; Expert(ts[k], ScaleOf(inv, ts[k].name)))
  }

  function Weights(es: seq<Expert>): (ts: seq<SourceTensor>)
    ensures |ts| == |es| && forall k | 0 <= k < |es| :: ts[k] == es[k].weight
  {
    seq(|es|, k requires 0 <= k < |es| => es[k].weight)
  }

  function ScalesOf(es: seq<Expert>): (ts: seq<SourceTensor>)
    ensures |ts| == |es| && forall k | 0 <= k < |es| :: ts[k] == es[k].scale
  {
    seq(|es|, k requires 0 <= k < |es| => es[k].scale)
  }

  predicate SameExpertLayout(es: seq<Expert>) {
    SameLayout(Weights(es)) && SameLayout(ScalesOf(es))
  }

  /** The decoded stack of one projection: its weights, then their scales, both in
      expert order. */
  function Fp8Stack(gp: string, proj: string, es: seq<Expert>, target: string, policy: Policy): TensorSpec
    requires es != []
  {
    var name, shape := StackedName(gp, proj), [|es|] + es[0].weight.shape;
    TensorSpec(name, Weights(es) + ScalesOf(es), DecodeStackFP8, policy(name, shape, target), es[0].weight.dtype,
      Some(shape))
  }

  ghost function Fp8Stacks(gp: string, projs: seq<string>, m: map<string, ByIndex<Expert>>, target: string,
          policy: Policy): (specs: seq<TensorSpec>)
    requires Stackable(m) && forall p | p in projs :: p in m
    ensures |specs| == |projs|
    ensures forall k | 0 <= k < |projs| :: specs[k] == Fp8Stack(gp, projs[k], InOrder(m[projs[k]]), target, policy)
  {
    seq(|projs|, k requires 0 <= k < |projs| =>
      assert projs[k] in projs; Fp8Stack(gp, projs[k], InOrder(m[projs[k]]), target, policy))
  }

  /** The weights with their scales, by projection and index. */
  function Fp8ByProjection(gp: string, ts: seq<SourceTensor>, inv: Inventory): Option<map<string, ByIndex<Expert>>> {
    if AllScaled(inv, ts) then ByProjection(gp, Names(ts), Experts(inv, ts)) else None
  }

  lemma Fp8Files(gp: string, ts: seq<SourceTensor>, inv: Inventory)
    requires Fp8ByProjection(gp, ts, inv).Some?
    ensures AllScaled(inv, ts) && Filed(gp, Names(ts), Experts(inv, ts), Fp8ByProjection(gp, ts, inv).value)
    ensures forall p | p in Fp8ByProjection(gp, ts, inv).value :: Fp8ByProjection(gp, ts, inv).value[p] != map[]
    ensures DistinctNames(Names(ts))
  {
    ByProjectionFiles(gp, Names(ts), Experts(inv, ts));
  }

  ghost function Fp8GroupPlan(gp: string, ts: seq<SourceTensor>, inv: Inventory, target: string,
          policy: Policy): Option<seq<BlobSpec>> {
    match Fp8ByProjection(gp, ts, inv)
    case None => None
    case Some(m) =>
      Fp8Files(gp, ts, inv);
      if SameExperts(m) && forall p | p in m :: SameExpertLayout(InOrder(m[p]))
      then
        SortedNamesAre(m.Keys);
        Some(Homogeneous(gp, Fp8Stacks(gp, SortedNames(m.Keys), m, target, policy)))
      else None
  }

  method GroupFp8ByProjection(gp: string, ts: seq<SourceTensor>, inv: Inventory)
    returns (r: Result<map<string, ByIndex<Expert>>, PlanError>)
    ensures r.Success? <==> Fp8ByProjection(gp, ts, inv).Some?
    ensures r.Success? ==> r.value == Fp8ByProjection(gp, ts, inv).value
  {
    hide ParseExpertTensor, ScaleFor, ByProjection;
    var m: map<string, ByIndex<Expert>> := map[];
    StartFiling(gp);
    assert Experts(inv, ts[..0]) == [];
    for k := 0 to |ts|
      invariant AllScaled(inv, ts[..k])
      invariant ByProjection(gp, Names(ts[..k]), Experts(inv, ts[..k])) == Some(m)
    {
      var t := ts[k];
      var at := ParseExpertTensor(gp, t.name);
      var scaleName := ScaleFor(inv, t.name);
      assert ts[..k + 1] == ts[..k] + [t];
      if at.None? {
        if AllScaled(inv, ts[..k + 1]) { FileNext(gp, ts, inv, k, m); }
        NotScaledOrFiled(gp, ts, inv, k);
        return Failure(NotAnExpert);
      }
      if scaleName.None? { assert ts[k] in ts; return Failure(NoScale); }
      var (idx, proj) := at.value;
      FileNext(gp, ts, inv, k, m);
      if proj in m && idx in m[proj] { NotScaledOrFiled(gp, ts, inv, k); return Failure(DuplicateExpert); }
      m := m[proj := (if proj in m then m[proj] else map[])[idx := Expert(t, inv[scaleName.value])]];
    }
    assert ts[..|ts|] == ts;
    r := Success(m);
  }

  lemma StartFiling(gp: string)
    ensures ByProjection<Expert>(gp, [], []) == Some(map[])
  {}

  lemma FileNext(gp: string, ts: seq<SourceTensor>, inv: Inventory, k: nat, m: map<string, ByIndex<Expert>>)
    requires k < |ts| && AllScaled(inv, ts[..k + 1]) && AllScaled(inv, ts[..k])
    requires ByProjection(gp, Names(ts[..k]), Experts(inv, ts[..k])) == Some(m)
    ensures ByProjection(gp, Names(ts[..k + 1]), Experts(inv, ts[..k + 1])) ==
            match ParseExpertTensor(gp, ts[k].name)
            case None => None
            case Some(at) =>
              if Holds(m, at.1, at.0) then None
              else Some(Put(m, at.1, at.0, Expert(ts[k], ScaleOf(inv, ts[k].name))))
  {
    hide ParseExpertTensor, Put, ScaleFor;
    assert Names(ts[..k + 1])[..k] == Names(ts[..k]) && Experts(inv, ts[..k + 1])[..k] == Experts(inv, ts[..k]);
  }

  lemma NotScaledOrFiled(gp: string, ts: seq<SourceTensor>, inv: Inventory, k: nat)
    requires k < |ts|
    requires AllScaled(inv, ts[..k + 1]) ==> ByProjection(gp, Names(ts[..k + 1]), Experts(inv, ts[..k + 1])).None?
    ensures AllScaled(inv, ts) ==> ByProjection(gp, Names(ts), Experts(inv, ts)).None?
  {
    hide ByProjection, ScaleFor;
    if AllScaled(inv, ts) {
      assert Names(ts[..k + 1]) == Names(ts)[..k + 1] && Experts(inv, ts[..k + 1]) == Experts(inv, ts)[..k + 1];
      SomeFails(gp, Names(ts), Experts(inv, ts), k + 1);
    }
  }

  /** The experts of one projection in index order: weights of one layout, scales of
      one layout. */
  method StackFp8Projection(gp: string, proj: string, experts: ByIndex<Expert>, count: nat, target: string,
          policy: Policy)
    returns (r: Result<TensorSpec, PlanError>)
    requires Contiguous(experts) && |experts| == count > 0
    ensures r.Success? <==> SameExpertLayout(InOrder(experts))
    ensures r.Success? ==> r.value == Fp8Stack(gp, proj, InOrder(experts), target, policy)
  {
    var base, baseScale := experts[0].weight, experts[0].scale;
    ghost var ws, ss := Weights(InOrder(experts)), ScalesOf(InOrder(experts));
    var sources: seq<SourceTensor>, scales: seq<SourceTensor> := [], [];
    for i := 0 to count
      invariant sources == ws[..i] && scales == ss[..i]
      invariant forall k | 0 <= k < i :: ws[k].dtype == base.dtype && ws[k].shape == base.shape
      invariant forall k | 0 <= k < i :: ss[k].dtype == baseScale.dtype && ss[k].shape == baseScale.shape
    {
      var e := experts[i];
      assert ws[i] == e.weight && ss[i] == e.scale;
      if e.weight.dtype != base.dtype || e.weight.shape != base.shape { return Failure(ExpertLayout); }
      if e.scale.dtype != baseScale.dtype || e.scale.shape != baseScale.shape { return Failure(ExpertLayout); }
      sources := sources + [e.weight];
      scales := scales + [e.scale];
    }
    assert ws[..count] == ws && ss[..count] == ss;
    sources := sources + scales;
    var stackedName := gp + "." + proj + ".weight";
    var stackedShape := [count] + base.shape;
    r := Success(TensorSpec(stackedName, sources, DecodeStackFP8, policy(stackedName, stackedShape, target),
      base.dtype, Some(stackedShape)));
  }

  method StackAllFp8(gp: string, projs: seq<string>, m: map<string, ByIndex<Expert>>, count: nat, target: string,
          policy: Policy)
    returns (r: Result<seq<TensorSpec>, PlanError>)
    requires Stackable(m) && (forall p | p in projs :: p in m) && forall p | p in m :: |m[p]| == count
    ensures r.Success? <==> forall p | p in projs :: SameExpertLayout(InOrder(m[p]))
    ensures r.Success? ==> r.value == Fp8Stacks(gp, projs, m, target, policy)
  {
    hide Fp8Stack, Fp8Stacks, InOrder, SameExpertLayout, Contiguous;
    var specs: seq<TensorSpec> := [];
    for k := 0 to |projs|
      invariant |specs| == k
      invariant forall j | 0 <= j < k :: specs[j] == Fp8Stack(gp, projs[j], InOrder(m[projs[j]]), target, policy)
      invariant forall j | 0 <= j < k :: SameExpertLayout(InOrder(m[projs[j]]))
    {
      assert projs[k] in projs;
      var stacked := StackFp8Projection(gp, projs[k], m[projs[k]], count, target, policy);
      if stacked.Failure? { return Failure(stacked.error); }
      specs := specs + [stacked.value];
    }
    r := Success(specs);
  }

  method PlanFp8ExpertGroup(gp: string, ts: seq<SourceTensor>, inv: Inventory, target: string, policy: Policy)
    returns (r: Result<seq<BlobSpec>, PlanError>)
    ensures r.Success? <==> Fp8GroupPlan(gp, ts, inv, target, policy).Some?
    ensures r.Success? ==> r.value == Fp8GroupPlan(gp, ts, inv, target, policy).value
  {
    hide Fp8ByProjection, SameExperts, SameExpertLayout, InOrder, Fp8Stack, Fp8Stacks, Homogeneous, SortedNames;
    var grouped := GroupFp8ByProjection(gp, ts, inv);
    if grouped.Failure? { return Failure(grouped.error); }
    var m := grouped.value;
    Fp8Files(gp, ts, inv);
    var counted := ValidateExpertProjections(m);
    if counted.Failure? { return Failure(counted.error); }
    var projs := SortedKeys(m.Keys);
    SortedNamesAre(m.Keys);
    var stacked := StackAllFp8(gp, projs, m, counted.value, target, policy);
    if stacked.Failure? { return Failure(stacked.error); }
    var blobs := HomogeneousExpertBlobs(gp, stacked.value);
    r := Success(blobs);
  }

  // ---- The whole plan -----------------------------------------------------

  /** A weight decoded with its scale, in a blob of its own. */
  function DecodedBlob(inv: Inventory, name: string, target: string, policy: Policy): BlobSpec
    requires IsFp8Weight(inv, name)
  {
    var t := inv[name];
    var quantize := policy(name, t.shape, target);
    BlobSpec(name, [TensorSpec(name, [t, ScaleOf(inv, name)], DecodeFP8, quantize, "BF16", Some(t.shape))], map[])
  }

  function OwnBlob(inv: Inventory, name: string, target: string, policy: Policy): BlobSpec
    requires name in inv
  {
    if IsFp8Weight(inv, name) then DecodedBlob(inv, name, target, policy) else PlainBlob(name, inv[name], "")
  }

  function OwnBlobs(inv: Inventory, target: string, policy: Policy): map<string, seq<BlobSpec>> {
    map name | name in inv :: [OwnBlob(inv, name, target, policy)]
  }

  /** Names that get no blob of their own: folded scales and experts. */
  function Absorbed(layer: string -> bool, inv: Inventory): Selection {
    name => if name in Consumed(inv) then Some("") else PerExpertGroup(layer, name)
  }

  function KeptExperts(layer: string -> bool, inv: Inventory): Selection {
    name => if name in Consumed(inv) || IsFp8Weight(inv, name) then None else PerExpertGroup(layer, name)
  }

  function Fp8Experts(layer: string -> bool, inv: Inventory): Selection {
    name => if name in Consumed(inv) || !IsFp8Weight(inv, name) then None else PerExpertGroup(layer, name)
  }

  ghost predicate AllDecode(g: map<string, seq<SourceTensor>>, inv: Inventory, target: string, policy: Policy) {
    forall gp | gp in g :: Fp8GroupPlan(gp, g[gp], inv, target, policy).Some?
  }

  ghost function Fp8GroupBlobs(g: map<string, seq<SourceTensor>>, inv: Inventory, target: string,
          policy: Policy): map<string, seq<BlobSpec>>
    requires AllDecode(g, inv, target, policy)
  {
    map gp | gp in g :: Fp8GroupPlan(gp, g[gp], inv, target, policy).value
  }

  ghost function Fp8GroupPart(g: map<string, seq<SourceTensor>>, inv: Inventory, target: string,
          policy: Policy): seq<BlobSpec>
    requires AllDecode(g, inv, target, policy)
  {
    SortedNamesAre(g.Keys);
    Flatten(SortedNames(g.Keys), Fp8GroupBlobs(g, inv, target, policy))
  }

  ghost function Fp8Planned(layer: string -> bool, inv: Inventory, target: string,
          policy: Policy): Option<seq<BlobSpec>> {
    SortedNamesAre(inv.Keys);
    var names := SortedNames(inv.Keys);
    var kept, decoded := Grouping(KeptExperts(layer, inv), inv, names), Grouping(Fp8Experts(layer, inv), inv, names);
    UngroupedAre(Absorbed(layer, inv), names);
    if AllStack(kept, "", policy) && AllDecode(decoded, inv, target, policy)
    then Some(Flatten(Ungrouped(Absorbed(layer, inv), names), OwnBlobs(inv, target, policy)) +
              GroupPart(kept, "", policy) + Fp8GroupPart(decoded, inv, target, policy))
    else None
  }

  method ConsumedScales(inv: Inventory, names: seq<string>) returns (consumed: set<string>)
    requires forall n :: n in names <==> n in inv
    ensures consumed == Consumed(inv)
  {
    hide ScaleFor, IsE4M3, HasSuffix;
    consumed := {};
    for k := 0 to |names|
      invariant consumed == set j, w | 0 <= j < k && w == names[j] && IsFp8Weight(inv, w) :: ScaleFor(inv, w).value
    {
      var name := names[k];
      if IsFp8Weight(inv, name) {
        consumed := consumed + {ScaleFor(inv, name).value};
      }
    }
  }

  method PlanFp8GroupPart(g: map<string, seq<SourceTensor>>, inv: Inventory, target: string, policy: Policy)
    returns (r: Result<seq<BlobSpec>, PlanError>)
    ensures r.Success? <==> AllDecode(g, inv, target, policy)
    ensures r.Success? ==> r.value == Fp8GroupPart(g, inv, target, policy)
  {
    hide Fp8GroupPlan, SortedNames, Flatten;
    var sorted := SortedKeys(g.Keys);
    SortedNamesAre(g.Keys);
    var specs: seq<BlobSpec> := [];
    ghost var blobs: map<string, seq<BlobSpec>> :=
      map gp | gp in g && Fp8GroupPlan(gp, g[gp], inv, target, policy).Some? ::
        Fp8GroupPlan(gp, g[gp], inv, target, policy).value;
    NothingFlat(sorted[..0], blobs);
    for k := 0 to |sorted|
      invariant forall j | 0 <= j < k :: sorted[j] in blobs
      invariant specs == Flatten(sorted[..k], blobs)
    {
      var gp := sorted[k];
      assert gp in g;
      var planned := PlanFp8ExpertGroup(gp, g[gp], inv, target, policy);
      if planned.Failure? { return Failure(planned.error); }
      FlattenTo(sorted, k, blobs);
      specs := specs + planned.value;
    }
    assert sorted[..|sorted|] == sorted;
    forall gp | gp in g ensures gp in blobs { assert gp in sorted; }
    assert blobs == Fp8GroupBlobs(g, inv, target, policy);
    r := Success(specs);
  }

  /** Sorts every tensor that is not a folded scale into its own blob, a float expert
      group or an FP8 expert group. */
  method SortOut(layer: string -> bool, inv: Inventory, names: seq<string>, consumed: set<string>, target: string,
          policy: Policy)
    returns (specs: seq<BlobSpec>, groups: map<string, seq<SourceTensor>>, fp8Groups: map<string, seq<SourceTensor>>)
    requires Known(inv, names) && consumed == Consumed(inv)
    ensures specs == Flatten(Ungrouped(Absorbed(layer, inv), names), OwnBlobs(inv, target, policy))
    ensures groups == Grouping(KeptExperts(layer, inv), inv, names)
    ensures fp8Groups == Grouping(Fp8Experts(layer, inv), inv, names)
  {
    hide PerExpertGroup, IsFp8Weight, DecodedBlob, PlainBlob, Consumed;
    ghost var blobs := OwnBlobs(inv, target, policy);
    specs, groups, fp8Groups := [], map[], map[];
    for k := 0 to |names|
      invariant specs == Flatten(Ungrouped(Absorbed(layer, inv), names[..k]), blobs)
      invariant groups == Grouping(KeptExperts(layer, inv), inv, names[..k])
      invariant fp8Groups == Grouping(Fp8Experts(layer, inv), inv, names[..k])
    {
      var name := names[k];
      assert names[..k + 1][..k] == names[..k];
      if name !in consumed {
        var t := inv[name];
        var gp := PerExpertGroup(layer, name);
        if IsFp8Weight(inv, name) && gp.Some? {
          fp8Groups := AddTo(fp8Groups, gp.value, t);
        } else if gp.Some? {
          groups := AddTo(groups, gp.value, t);
        } else {
          FlattenNext(Ungrouped(Absorbed(layer, inv), names[..k]), name, blobs);
          specs := specs + [OwnBlob(inv, name, target, policy)];
        }
      }
    }
    assert names[..|names|] == names;
  }

  method PlanBlockFp8(layer: string -> bool, inv: Inventory, target: string, policy: Policy)
    returns (r: Result<seq<BlobSpec>, PlanError>)
    ensures r.Success? <==> Fp8Planned(layer, inv, target, policy).Some?
    ensures r.Success? ==> r.value == Fp8Planned(layer, inv, target, policy).value
  {
    hide AllStack, AllDecode, GroupPart, Fp8GroupPart, SortedNames, OwnBlobs, Consumed, Absorbed, KeptExperts,
         Fp8Experts;
    var names := SortedKeys(inv.Keys);
    SortedNamesAre(inv.Keys);
    UngroupedAre(Absorbed(layer, inv), names);
    var consumed := ConsumedScales(inv, names);
    var specs, groups, fp8Groups := SortOut(layer, inv, names, consumed, target, policy);
    var kept := PlanGroupPart(groups, "", policy);
    if kept.Failure? { return Failure(kept.error); }
    var decoded := PlanFp8GroupPart(fp8Groups, inv, target, policy);
    if decoded.Failure? { return Failure(decoded.error); }
    r := Success(specs + kept.value + decoded.value);
  }
}
