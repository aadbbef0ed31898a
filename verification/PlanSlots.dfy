/** The order of the experts in every stack that a whole plan makes. */
module PlanSlots {
  import opened PlanNames
  import opened PlanTypes
  import opened PlanExperts
  import opened ExpertConservation
  import opened PlanGroups
  import FloatPlan
  import Fp8Plan
  import Fp8Conservation
  import opened PrequantMatch
  import opened PrequantPlan
  import PrequantConservation
  import opened Planner

  // ---- What a stack's slots hold ------------------------------------------

  /** t is what weight name brings to its fused blob under this suffix. */
  ghost predicate Brings(inv: Inventory, config: Config, name: string, suffix: string, t: SourceTensor) {
    name in inv && MatchPrequant(inv, config, name).Some? &&
    exists s :: s in MatchPrequant(inv, config, name).value.spec.tensors && s.name == name + suffix && s.sources == [t]
  }

  ghost predicate CompanionsInSlots(inv: Inventory, config: Config, spec: TensorSpec, gp: string, proj: string,
          suffix: string) {
    spec.name == StackedName(gp, proj) + suffix &&
    forall i | 0 <= i < |spec.sources| :: Brings(inv, config, ExpertName(gp, i, proj), suffix, spec.sources[i])
  }

  /** A stack of scales or global scales beside a stack of packed words. */
  ghost predicate InBank(inv: Inventory, config: Config, spec: TensorSpec) {
    exists gp, proj :: CompanionsInSlots(inv, config, spec, gp, proj, ".scale") ||
                       CompanionsInSlots(inv, config, spec, gp, proj, ".global_scale")
  }

  /** Expert i is at slot i: its weight, or what it brings to the bank; and in a stack
      of n decoded experts its scale is at slot n + i. */
  ghost predicate SlotsHold(inv: Inventory, config: Config, spec: TensorSpec) {
    && (spec.transform == StackExperts ==>
          (exists gp :: InSlots(gp, spec, |spec.sources|)) || InBank(inv, config, spec))
    && (spec.transform == DecodeStackFP8 ==> exists gp, n: nat :: Fp8Conservation.Fp8InSlots(gp, inv, spec, n))
  }

  ghost predicate AllSlotsHold(inv: Inventory, config: Config, specs: seq<BlobSpec>) {
    forall b, s | b in specs && s in b.tensors :: SlotsHold(inv, config, s)
  }

  lemma SlotsConcat(inv: Inventory, config: Config, a: seq<BlobSpec>, b: seq<BlobSpec>)
    requires AllSlotsHold(inv, config, a) && AllSlotsHold(inv, config, b)
    ensures AllSlotsHold(inv, config, a + b)
  {
    hide SlotsHold;
  }

  lemma {:induction false} SlotsFlatten(inv: Inventory, config: Config, names: seq<string>,
          blobs: map<string, seq<BlobSpec>>)
    requires forall x | x in names :: x in blobs && AllSlotsHold(inv, config, blobs[x])
    ensures AllSlotsHold(inv, config, Flatten(names, blobs))
    decreases |names|
  {
    hide SlotsHold;
    if names != [] {
      var front, last := names[..|names| - 1], names[|names| - 1];
      SlotsFlatten(inv, config, front, blobs);
      SlotsConcat(inv, config, Flatten(front, blobs), blobs[last]);
    }
  }

  // ---- Groups of experts --------------------------------------------------

  lemma GroupSlots(inv: Inventory, config: Config, gp: string, ts: seq<SourceTensor>, quantize: string, policy: Policy)
    requires ExpertGroupPlan(gp, ts, quantize, policy).Some?
    ensures AllSlotsHold(inv, config, ExpertGroupPlan(gp, ts, quantize, policy).value)
  {
    hide ExpertGroupPlan;
    ExpertsInSlots(gp, ts, quantize, policy);
    var specs := ExpertGroupPlan(gp, ts, quantize, policy).value;
    var count: nat :| AllInSlots(gp, specs, count);
    forall b, s | b in specs && s in b.tensors ensures SlotsHold(inv, config, s) {
      assert InSlots(gp, s, count);
    }
  }

  lemma GroupPartSlots(inv: Inventory, config: Config, g: map<string, seq<SourceTensor>>, quantize: string,
          policy: Policy)
    requires AllStack(g, quantize, policy)
    ensures AllSlotsHold(inv, config, GroupPart(g, quantize, policy))
  {
    hide ExpertGroupPlan, AllSlotsHold, Flatten, SortedNames;
    SortedNamesAre(g.Keys);
    forall gp | gp in g ensures AllSlotsHold(inv, config, GroupBlobs(g, quantize, policy)[gp]) {
      GroupSlots(inv, config, gp, g[gp], quantize, policy);
    }
    SlotsFlatten(inv, config, SortedNames(g.Keys), GroupBlobs(g, quantize, policy));
  }

  lemma Fp8GroupSlots(inv: Inventory, config: Config, gp: string, ts: seq<SourceTensor>, target: string,
          policy: Policy)
    requires Fp8Plan.Fp8GroupPlan(gp, ts, inv, target, policy).Some?
    ensures AllSlotsHold(inv, config, Fp8Plan.Fp8GroupPlan(gp, ts, inv, target, policy).value)
  {
    hide Fp8Plan.Fp8GroupPlan;
    Fp8Conservation.Fp8ExpertsInSlots(gp, ts, inv, target, policy);
    var specs := Fp8Plan.Fp8GroupPlan(gp, ts, inv, target, policy).value;
    var count: nat :| Fp8Conservation.AllFp8InSlots(gp, inv, specs, count);
    forall b, s | b in specs && s in b.tensors ensures SlotsHold(inv, config, s) {
      assert Fp8Conservation.Fp8InSlots(gp, inv, s, count);
    }
  }

  lemma Fp8GroupPartSlots(inv: Inventory, config: Config, g: map<string, seq<SourceTensor>>, target: string,
          policy: Policy)
    requires Fp8Plan.AllDecode(g, inv, target, policy)
    ensures AllSlotsHold(inv, config, Fp8Plan.Fp8GroupPart(g, inv, target, policy))
  {
    hide Fp8Plan.Fp8GroupPlan, AllSlotsHold, Flatten, SortedNames;
    SortedNamesAre(g.Keys);
    var blobs := Fp8Plan.Fp8GroupBlobs(g, inv, target, policy);
    forall gp | gp in g ensures AllSlotsHold(inv, config, blobs[gp]) {
      Fp8GroupSlots(inv, config, gp, g[gp], target, policy);
    }
    SlotsFlatten(inv, config, SortedNames(g.Keys), blobs);
  }

  // ---- Banks --------------------------------------------------------------

  /** What an expert brings to its bank is what it brings to its fused blob. */
  lemma PartBrings(inv: Inventory, config: Config, fused: map<string, BlobSpec>, w: SourceTensor)
    requires PrequantConservation.FusedFrom(inv, config, fused) && PartOf(w, fused).Some?
    ensures Brings(inv, config, w.name, ".scale", PartOf(w, fused).value.scale)
    ensures Brings(inv, config, w.name, ".global_scale", PartOf(w, fused).value.global)
  {
    hide MatchPrequant, WordShape;
    var ts := fused[w.name].tensors;
    assert ts[1] in ts && ts[2] in ts && ts == MatchPrequant(inv, config, w.name).value.spec.tensors;
    assert ts[1].sources == [ts[1].sources[0]] && ts[2].sources == [ts[2].sources[0]];
  }

  lemma BankSlots(inv: Inventory, config: Config, fused: map<string, BlobSpec>, gp: string, packed: TensorSpec)
    requires PrequantConservation.FusedFrom(inv, config, fused) && packed.sources != [] &&
              AllParts(packed.sources, fused)
    requires InSlots(gp, packed, |packed.sources|)
    ensures forall s | s in BankOf(packed, Parts(packed.sources, fused)) :: SlotsHold(inv, config, s)
  {
    hide PrequantConservation.FusedFrom, PartOf, Brings;
    var proj :| packed.name == StackedName(gp, proj) &&
                forall i | 0 <= i < |packed.sources| :: packed.sources[i].name == ExpertName(gp, i, proj);
    hide StackedName, ExpertName;
    var ps := Parts(packed.sources, fused);
    var bank := BankOf(packed, ps);
    forall i | 0 <= i < |packed.sources|
      ensures Brings(inv, config, ExpertName(gp, i, proj), ".scale", ps[i].scale) &&
              Brings(inv, config, ExpertName(gp, i, proj), ".global_scale", ps[i].global)
    {
      PartBrings(inv, config, fused, packed.sources[i]);
    }
    assert InSlots(gp, bank[0], |bank[0].sources|);
    assert CompanionsInSlots(inv, config, bank[1], gp, proj, ".scale");
    assert CompanionsInSlots(inv, config, bank[2], gp, proj, ".global_scale");
  }

  lemma {:induction false} BanksSlots(inv: Inventory, config: Config, fused: map<string, BlobSpec>, gp: string,
          stacks: seq<TensorSpec>, metadata: map<string, string>)
    requires PrequantConservation.FusedFrom(inv, config, fused) && AllBanks(stacks, fused, metadata)
    requires forall s | s in stacks :: InSlots(gp, s, |s.sources|)
    ensures forall s | s in BankTensors(stacks, fused, metadata) :: SlotsHold(inv, config, s)
    decreases |stacks|
  {
    hide PrequantConservation.FusedFrom, AllParts, OneBank, InSlots, SlotsHold, BankOf;
    if stacks != [] {
      var front, last := stacks[..|stacks| - 1], stacks[|stacks| - 1];
      assert last in stacks;
      BanksSlots(inv, config, fused, gp, front, metadata);
      BankSlots(inv, config, fused, gp, last);
    }
  }

  lemma BankPlanSlots(inv: Inventory, config: Config, fused: map<string, BlobSpec>, gp: string, ts: seq<SourceTensor>,
          policy: Policy)
    requires PrequantConservation.FusedFrom(inv, config, fused) && ts != [] && BankPlan(gp, ts, fused, policy).Some?
    ensures AllSlotsHold(inv, config, BankPlan(gp, ts, fused, policy).value)
  {
    hide PrequantConservation.FusedFrom, ExpertGroupPlan, AllBanks, BankTensors, BankMetadata, SlotsHold, InSlots;
    var specs := ExpertGroupPlan(gp, ts, "", policy).value;
    UnquantizedGroup(gp, ts, policy);
    ExpertsInSlots(gp, ts, "", policy);
    var count: nat :| AllInSlots(gp, specs, count);
    forall s | s in specs[0].tensors ensures InSlots(gp, s, |s.sources|) {
      assert specs[0] in specs && InSlots(gp, s, count);
      SlotCount(gp, s, count);
    }
    BanksSlots(inv, config, fused, gp, specs[0].tensors, BankMetadata(specs[0].tensors, fused));
  }

  lemma SlotCount(gp: string, s: TensorSpec, count: nat)
    requires InSlots(gp, s, count)
    ensures |s.sources| == count
  {}

  ghost predicate NoneEmpty(g: map<string, seq<SourceTensor>>) { forall gp | gp in g :: g[gp] != [] }

  lemma PackedPartSlots(inv: Inventory, config: Config, fused: map<string, BlobSpec>, g: map<string, seq<SourceTensor>>,
          policy: Policy)
    requires PrequantConservation.FusedFrom(inv, config, fused) && AllPackedOrPlain(g, fused, policy)
    requires NoneEmpty(g)
    ensures AllSlotsHold(inv, config, PackedPart(g, fused, policy))
  {
    hide PrequantConservation.FusedFrom, ExpertGroupPlan, BankPlan, AllSlotsHold, Flatten, SortedNames;
    SortedNamesAre(g.Keys);
    var blobs := PackedBlobs(g, fused, policy);
    forall gp | gp in g ensures AllSlotsHold(inv, config, blobs[gp]) {
      if NoneFused(g[gp], fused) {
        GroupSlots(inv, config, gp, g[gp], "", policy);
      } else {
        BankPlanSlots(inv, config, fused, gp, g[gp], policy);
      }
    }
    SlotsFlatten(inv, config, SortedNames(g.Keys), blobs);
  }

  // ---- Other blobs --------------------------------------------------------

  /** Not a stack of experts. */
  predicate Single(spec: TensorSpec) { spec.transform != StackExperts && spec.transform != DecodeStackFP8 }

  lemma {:induction false} MatchSingle(ps: seq<Pattern>, inv: Inventory, config: Config, name: string)
    requires name in inv && MatchFirst(ps, inv, config, name).Some?
    ensures forall s | s in MatchFirst(ps, inv, config, name).value.spec.tensors :: Single(s)
  {
    hide Metadata, MatchesDtype, CutSuffix, Ignored, IsE4M3;
    if MatchWith(ps[0], inv, config, name).None? { MatchSingle(ps[1..], inv, config, name); }
  }

  lemma RestSlots(inv: Inventory, config: Config, fused: map<string, BlobSpec>, name: string)
    requires PrequantConservation.FusedFrom(inv, config, fused) && name in inv
    ensures AllSlotsHold(inv, config, [RestBlob(inv, fused, name)])
  {
    hide MatchFirst;
    if name in fused { MatchSingle(PATTERNS, inv, config, name); }
  }

  // ---- Whole plans --------------------------------------------------------

  lemma FloatSlots(im: Import)
    requires WellKeyed(im.inv) && FloatPlan.Planned(im.layer, im.inv, im.quantize, im.policy).Some?
    ensures AllSlotsHold(im.inv, im.config, FloatPlan.Planned(im.layer, im.inv, im.quantize, im.policy).value)
  {
    hide GroupPart, Flatten, SortedNames, Ungrouped, Grouping, AllSlotsHold, PerExpertGroup;
    SortedNamesAre(im.inv.Keys);
    var names := SortedNames(im.inv.Keys);
    var sel := FloatPlan.ByExpert(im.layer);
    UngroupedAre(sel, names);
    var blobs := PlainBlobs(im.inv, im.quantize, im.policy);
    forall x | x in im.inv ensures AllSlotsHold(im.inv, im.config, blobs[x]) {
      PlainSlots(im.inv, im.config, x, im.inv[x], PlainQuantize(im.inv, x, im.quantize, im.policy));
    }
    SlotsFlatten(im.inv, im.config, Ungrouped(sel, names), blobs);
    var g := Grouping(sel, im.inv, names);
    GroupPartSlots(im.inv, im.config, g, im.quantize, im.policy);
    SlotsConcat(im.inv, im.config, Flatten(Ungrouped(sel, names), blobs), GroupPart(g, im.quantize, im.policy));
  }

  lemma PlainSlots(inv: Inventory, config: Config, name: string, t: SourceTensor, quantize: string)
    ensures AllSlotsHold(inv, config, [PlainBlob(name, t, quantize)])
  {}

  lemma OwnSlots(inv: Inventory, config: Config, name: string, target: string, policy: Policy)
    requires name in inv
    ensures AllSlotsHold(inv, config, [Fp8Plan.OwnBlob(inv, name, target, policy)])
  {
    hide Fp8Plan.IsFp8Weight;
  }

  lemma Fp8Slots(im: Import)
    requires WellKeyed(im.inv) && Fp8Plan.Fp8Planned(im.layer, im.inv, im.quantize, im.policy).Some?
    ensures AllSlotsHold(im.inv, im.config, Fp8Plan.Fp8Planned(im.layer, im.inv, im.quantize, im.policy).value)
  {
    hide GroupPart, Fp8Plan.Fp8GroupPart, Flatten, SortedNames, Ungrouped, Grouping, AllSlotsHold, PerExpertGroup,
         Fp8Plan.OwnBlob, Fp8Plan.Absorbed, Fp8Plan.KeptExperts, Fp8Plan.Fp8Experts, AllStack, Fp8Plan.AllDecode;
    SortedNamesAre(im.inv.Keys);
    var names := SortedNames(im.inv.Keys);
    var sel := Fp8Plan.Absorbed(im.layer, im.inv);
    UngroupedAre(sel, names);
    var blobs := Fp8Plan.OwnBlobs(im.inv, im.quantize, im.policy);
    forall x | x in im.inv ensures AllSlotsHold(im.inv, im.config, blobs[x]) {
      OwnSlots(im.inv, im.config, x, im.quantize, im.policy);
    }
    var own := Ungrouped(sel, names);
    SlotsFlatten(im.inv, im.config, own, blobs);
    var kept := Grouping(Fp8Plan.KeptExperts(im.layer, im.inv), im.inv, names);
    var decoded := Grouping(Fp8Plan.Fp8Experts(im.layer, im.inv), im.inv, names);
    GroupPartSlots(im.inv, im.config, kept, "", im.policy);
    Fp8GroupPartSlots(im.inv, im.config, decoded, im.quantize, im.policy);
    SlotsConcat(im.inv, im.config, Flatten(own, blobs), GroupPart(kept, "", im.policy));
    SlotsConcat(im.inv, im.config, Flatten(own, blobs) + GroupPart(kept, "", im.policy),
                Fp8Plan.Fp8GroupPart(decoded, im.inv, im.quantize, im.policy));
  }

  lemma GroupsNonempty(sel: Selection, inv: Inventory, names: seq<string>)
    requires WellKeyed(inv) && Known(inv, names)
    ensures NoneEmpty(Grouping(sel, inv, names))
  {
    GroupingIs(sel, inv, names);
  }

  lemma PrequantSlots(im: Import)
    requires WellKeyed(im.inv) && PrequantPlanned(im.layer, im.inv, im.config, im.policy).Some?
    ensures AllSlotsHold(im.inv, im.config, PrequantPlanned(im.layer, im.inv, im.config, im.policy).value)
  {
    hide PackedPart, Flatten, SortedNames, Ungrouped, Grouping, AllSlotsHold, PerExpertGroup, RestBlob, Taken,
         FlintExperts, AllPackedOrPlain, WithEmbedding, FusedBlobs, PrequantConservation.FusedFrom;
    SortedNamesAre(im.inv.Keys);
    var names := SortedNames(im.inv.Keys);
    var fused := WithEmbedding(im.config, FusedBlobs(im.inv, im.config)).value;
    PrequantConservation.EmbeddingKeeps(im.inv, im.config);
    var sel := FlintExperts(im.layer, im.config);
    var g := Grouping(sel, im.inv, names);
    GroupsNonempty(sel, im.inv, names);
    PackedPartSlots(im.inv, im.config, fused, g, im.policy);
    var blobs := RestBlobs(im.inv, fused);
    forall x | x in im.inv ensures AllSlotsHold(im.inv, im.config, blobs[x]) {
      RestSlots(im.inv, im.config, fused, x);
    }
    var rest := Ungrouped(Taken(im.layer, im.inv, im.config), names);
    SlotsFlatten(im.inv, im.config, rest, blobs);
    SlotsConcat(im.inv, im.config, PackedPart(g, fused, im.policy), Flatten(rest, blobs));
  }

  /** In every stack of a successful plan, expert i is at slot i; decoded stacks have
      expert i's scale at slot n + i, and the stacks beside packed words hold at slot i
      the scale or global scale that expert i brings. */
  lemma PlanInSlots(im: Import)
    requires WellKeyed(im.inv) && Specs(im).Some?
    ensures AllSlotsHold(im.inv, im.config, Specs(im).value)
  {
    hide FloatPlan.Planned, PrequantPlanned, Fp8Plan.Fp8Planned, AllSlotsHold;
    match im.kind {
      case SourceFloat => FloatSlots(im);
      case SourcePrequantized => PrequantSlots(im);
      case SourceBlockFP8 => Fp8Slots(im);
    }
  }
}
