/** Plan of create/plan.go, over all kinds of source. */
module Planner {
  import opened Results
  import opened PlanTypes
  import opened PlanCheck
  import FloatPlan
  import Fp8Plan
  import Fp8Conservation
  import opened PrequantMatch
  import PrequantPlan
  import PrequantUse

  datatype SourceKind = SourceFloat | SourcePrequantized | SourceBlockFP8

  /** A model to import: its tensors, what the config says, and what the caller wants.
      layer recognizes layer prefixes. */
  datatype Import = Import(
    kind: SourceKind, layer: string -> bool, inv: Inventory, config: Config, quantize: string, policy: Policy)

  ghost function Specs(im: Import): Option<seq<BlobSpec>> {
    match im.kind
    case SourceFloat => FloatPlan.Planned(im.layer, im.inv, im.quantize, im.policy)
    case SourcePrequantized => PrequantPlan.PrequantPlanned(im.layer, im.inv, im.config, im.policy)
    case SourceBlockFP8 => Fp8Plan.Fp8Planned(im.layer, im.inv, im.quantize, im.policy)
  }

  /** Plans an import; a plan whose outputs share a name is rejected. */
  method Plan(im: Import) returns (r: Result<seq<BlobSpec>, PlanError>)
    requires WellKeyed(im.inv)
    ensures r.Success? <==> Specs(im).Some? && NoCollisions(Specs(im).value)
    ensures r.Success? ==> r.value == Specs(im).value
  {
    hide FloatPlan.Planned, PrequantPlan.PrequantPlanned, Fp8Plan.Fp8Planned, NoCollisions;
    match im.kind {
      case SourceFloat => r := FloatPlan.PlanFloat(im.layer, im.inv, im.quantize, im.policy);
      case SourcePrequantized => r := PrequantPlan.PlanPrequantized(im.layer, im.inv, im.config, im.policy);
      case SourceBlockFP8 => r := Fp8Plan.PlanBlockFp8(im.layer, im.inv, im.quantize, im.policy);
    }
    if r.Success? {
      var clash := CheckOutputCollisions(r.value);
      if clash.Some? { r := Failure(clash.value); }
    }
  }

  /** The tensors an import is meant to carry over. */
  ghost function Expected(im: Import): set<SourceTensor> {
    if im.kind == SourcePrequantized then PrequantUse.Kept(im.inv, im.config) else im.inv.Values
  }

  /** A scaled Flint expert that is also shipped packed. */
  ghost predicate HasTwin(im: Import) {
    im.kind == SourcePrequantized && exists w :: PrequantUse.PackedTwin(im.layer, im.inv, im.config, w)
  }

  /** A successful plan uses every expected tensor of the inventory in exactly one output
      position, unless it imports a scaled Flint expert with a packed twin; then it never
      does. */
  lemma PlanConservesIff(im: Import)
    requires WellKeyed(im.inv) && Specs(im).Some? && NoCollisions(Specs(im).value)
    ensures multiset(Sources(Specs(im).value)) == multiset(Expected(im)) <==> !HasTwin(im)
  {
    hide FloatPlan.Planned, PrequantPlan.PrequantPlanned, Fp8Plan.Fp8Planned, NoCollisions, PrequantUse.Kept,
         PrequantUse.PackedTwin;
    match im.kind {
      case SourceFloat => FloatPlan.FloatConserves(im.layer, im.inv, im.quantize, im.policy);
      case SourcePrequantized => PrequantUse.PrequantConservesIff(im.layer, im.inv, im.config, im.policy);
      case SourceBlockFP8 => Fp8Conservation.Fp8Conserves(im.layer, im.inv, im.quantize, im.policy);
    }
  }
}
