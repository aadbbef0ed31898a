/** planFloat of create/plan.go. */
module FloatPlan {
  import opened Results
  import opened PlanNames
  import opened PlanTypes
  import opened PlanGroups

  function ByExpert(layer: string -> bool): Selection {
    name => PerExpertGroup(layer, name)
  }

  /** The plan of a float model; nothing when an expert group does not stack. */
  ghost function Planned(layer: string -> bool, inv: Inventory, quantize: string,
          policy: Policy): Option<seq<BlobSpec>> {
    SortedNamesAre(inv.Keys);
    var names := SortedNames(inv.Keys);
    var g := Grouping(ByExpert(layer), inv, names);
    UngroupedAre(ByExpert(layer), names);
    if AllStack(g, quantize, policy)
    then Some(Flatten(Ungrouped(ByExpert(layer), names), PlainBlobs(inv, quantize, policy)) +
              GroupPart(g, quantize, policy))
    else None
  }

  method PlanFloat(layer: string -> bool, inv: Inventory, quantize: string, policy: Policy)
    returns (r: Result<seq<BlobSpec>, PlanError>)
    ensures r.Success? <==> Planned(layer, inv, quantize, policy).Some?
    ensures r.Success? ==> r.value == Planned(layer, inv, quantize, policy).value
  {
    hide AllStack, GroupPart, SortedNames, PerExpertGroup, PlainBlobs;
    var names := SortedKeys(inv.Keys);
    SortedNamesAre(inv.Keys);
    ghost var sel := ByExpert(layer);
    var groups: map<string, seq<SourceTensor>> := map[];
    var plain: seq<string> := [];
    for k := 0 to |names|
      invariant groups == Grouping(sel, inv, names[..k])
      invariant plain == Ungrouped(sel, names[..k])
    {
      var name := names[k];
      assert names[..k + 1][..k] == names[..k];
      var gp := PerExpertGroup(layer, name);
      if gp.Some? {
        groups := groups[gp.value := (if gp.value in groups then groups[gp.value] else []) + [inv[name]]];
      } else {
        plain := plain + [name];
      }
    }
    assert names[..|names|] == names;
    UngroupedAre(sel, names);
    var specs := PlanPlainPart(inv, plain, quantize, policy);
    var grouped := PlanGroupPart(groups, quantize, policy);
    if grouped.Failure? { return Failure(grouped.error); }
    r := Success(specs + grouped.value);
  }

  /** A float plan uses every tensor of the inventory in exactly one place. */
  lemma FloatConserves(layer: string -> bool, inv: Inventory, quantize: string, policy: Policy)
    requires WellKeyed(inv) && Planned(layer, inv, quantize, policy).Some?
    ensures multiset(Sources(Planned(layer, inv, quantize, policy).value)) == multiset(inv.Values)
  {
    hide AllStack, GroupPart, SortedNames, PerExpertGroup, Grouping, Ungrouped, Flatten;
    var specs := Planned(layer, inv, quantize, policy).value;
    forall t ensures Uses(specs, t) == multiset(inv.Values)[t] {
      FloatUses(layer, inv, quantize, policy, t);
      assert Own(inv, t) <==> t in inv.Values;
    }
  }

  lemma FloatUses(layer: string -> bool, inv: Inventory, quantize: string, policy: Policy, t: SourceTensor)
    requires WellKeyed(inv) && Planned(layer, inv, quantize, policy).Some?
    ensures Uses(Planned(layer, inv, quantize, policy).value, t) == if Own(inv, t) then 1 else 0
  {
    hide Uses, GroupPart, SortedNames, PerExpertGroup, Grouping, Ungrouped, Flatten;
    var names, sel := SortedNames(inv.Keys), ByExpert(layer);
    SortedNamesAre(inv.Keys);
    UngroupedAre(sel, names);
    var plain := Ungrouped(sel, names);
    PlainPartUses(inv, plain, quantize, policy, t);
    GroupPartUses(sel, inv, names, quantize, policy, t);
    UsesConcat(Flatten(plain, PlainBlobs(inv, quantize, policy)),
      GroupPart(Grouping(sel, inv, names), quantize, policy), t);
  }
}
