/** Sorting an inventory's tensors into plain blobs and expert groups, as every
    planner of create/ does, and how often the result uses each tensor. */
module PlanGroups {
  import opened Results
  import opened PlanNames
  import opened PlanTypes
  import opened PlanExperts
  import opened ExpertConservation

  /** Which group a name goes to, if any. */
  type Selection = string -> Option<string>

  ghost predicate Known(inv: Inventory, names: seq<string>) {
    forall n | n in names :: n in inv
  }

  /** The tensors of each group, in the order of the names. */
  function Grouping(sel: Selection, inv: Inventory, names: seq<string>): map<string, seq<SourceTensor>>
    requires Known(inv, names)
  {
    if names == [] then map[]
    else
      var g, last := Grouping(sel, inv, names[..|names| - 1]), names[|names| - 1];
      match sel(last)
      case None => g
      case Some(gp) => AddTo(g, gp, inv[last])
  }

  function AddTo(g: map<string, seq<SourceTensor>>, gp: string, t: SourceTensor): map<string, seq<SourceTensor>> {
    g[gp := (if gp in g then g[gp] else []) + [t]]
  }

  /** The names of this list that sel leaves alone. */
  function Ungrouped(sel: Selection, names: seq<string>): (rest: seq<string>)
    ensures forall n | n in rest :: n in names
  {
    if names == [] then []
    else
      var rest, last := Ungrouped(sel, names[..|names| - 1]), names[|names| - 1];
      if sel(last).None? then rest + [last] else rest
  }

  lemma {:induction false} UngroupedAre(sel: Selection, names: seq<string>)
    requires DistinctNames(names)
    ensures DistinctNames(Ungrouped(sel, names))
    ensures forall n :: n in Ungrouped(sel, names) <==> n in names && sel(n).None?
    decreases |names|
  {
    if names != [] {
      var front, last := names[..|names| - 1], names[|names| - 1];
      assert names == front + [last] && last !in front;
      UngroupedAre(sel, front);
    }
  }

  /** The tensor is one of the inventory's, filed under its name. */
  predicate Own(inv: Inventory, t: SourceTensor) { t.name in inv && inv[t.name] == t }

  /** A group is what the names selected for it stand for. */
  lemma {:induction false} GroupingIs(sel: Selection, inv: Inventory, names: seq<string>)
    requires Known(inv, names) && WellKeyed(inv)
    ensures var g := Grouping(sel, inv, names);
            (forall n | n in names && sel(n).Some? :: sel(n).value in g) &&
            (forall gp | gp in g :: g[gp] != []) &&
            forall gp, t | gp in g :: t in g[gp] <==> Own(inv, t) && t.name in names && sel(t.name) == Some(gp)
    decreases |names|
  {
    if names != [] {
      var front, last := names[..|names| - 1], names[|names| - 1];
      assert names == front + [last];
      GroupingIs(sel, inv, front);
    }
  }

  // ---- Plain tensors ------------------------------------------------------

  /** What a plain tensor is quantized to. */
  function PlainQuantize(inv: Inventory, name: string, quantize: string, policy: Policy): string
    requires name in inv
  {
    QuantizationOf(policy, name, inv[name].shape, quantize)
  }

  function PlainBlobs(inv: Inventory, quantize: string, policy: Policy): map<string, seq<BlobSpec>> {
    map name | name in inv :: [PlainBlob(name, inv[name], PlainQuantize(inv, name, quantize, policy))]
  }

  /** A blob for each plain tensor. */
  method PlanPlainPart(inv: Inventory, plain: seq<string>, quantize: string, policy: Policy)
    returns (specs: seq<BlobSpec>)
    requires Known(inv, plain)
    ensures specs == Flatten(plain, PlainBlobs(inv, quantize, policy))
  {
    ghost var blobs := PlainBlobs(inv, quantize, policy);
    specs := [];
    for k := 0 to |plain|
      invariant specs == Flatten(plain[..k], blobs)
    {
      var name := plain[k];
      assert name in plain && plain[..k + 1][..k] == plain[..k];
      var q := "";
      if quantize != "" { q := policy(name, inv[name].shape, quantize); }
      specs := specs + [PlainBlob(name, inv[name], q)];
    }
    assert plain[..|plain|] == plain;
  }

  lemma PlainPartUses(inv: Inventory, names: seq<string>, quantize: string, policy: Policy, t: SourceTensor)
    requires WellKeyed(inv) && Known(inv, names) && DistinctNames(names)
    ensures Uses(Flatten(names, PlainBlobs(inv, quantize, policy)), t)
         == if Own(inv, t) && t.name in names then 1 else 0
  {
    hide Uses, PlainBlob, Flatten;
    var blobs := PlainBlobs(inv, quantize, policy);
    forall x | x in names ensures Uses(blobs[x], t) == (if inv[x] == t then 1 else 0) {
      PlainUses(x, inv[x], PlainQuantize(inv, x, quantize, policy), t);
    }
    UsesFlatten(names, blobs, t, t.name);
  }

  // ---- Expert groups ------------------------------------------------------

  ghost predicate AllStack(g: map<string, seq<SourceTensor>>, quantize: string, policy: Policy) {
    forall gp | gp in g :: ExpertGroupPlan(gp, g[gp], quantize, policy).Some?
  }

  ghost function GroupBlobs(g: map<string, seq<SourceTensor>>, quantize: string, policy: Policy): map<string,
          seq<BlobSpec>>
    requires AllStack(g, quantize, policy)
  {
    map gp | gp in g :: ExpertGroupPlan(gp, g[gp], quantize, policy).value
  }

  /** The blobs of all groups, in the order of their names. */
  ghost function GroupPart(g: map<string, seq<SourceTensor>>, quantize: string, policy: Policy): seq<BlobSpec>
    requires AllStack(g, quantize, policy)
  {
    SortedNamesAre(g.Keys);
    Flatten(SortedNames(g.Keys), GroupBlobs(g, quantize, policy))
  }

  method PlanGroupPart(g: map<string, seq<SourceTensor>>, quantize: string, policy: Policy)
    returns (r: Result<seq<BlobSpec>, PlanError>)
    ensures r.Success? <==> AllStack(g, quantize, policy)
    ensures r.Success? ==> r.value == GroupPart(g, quantize, policy)
  {
    hide ExpertGroupPlan, SortedNames, Flatten;
    var sorted := SortedKeys(g.Keys);
    SortedNamesAre(g.Keys);
    var specs: seq<BlobSpec> := [];
    ghost var blobs: map<string, seq<BlobSpec>> :=
      map gp | gp in g && ExpertGroupPlan(gp, g[gp], quantize, policy).Some? ::
        ExpertGroupPlan(gp, g[gp], quantize, policy).value;
    NothingFlat(sorted[..0], blobs);
    for k := 0 to |sorted|
      invariant forall j | 0 <= j < k :: sorted[j] in blobs
      invariant specs == Flatten(sorted[..k], blobs)
    {
      var gp := sorted[k];
      assert gp in g;
      var planned := PlanExpertGroup(gp, g[gp], quantize, policy);
      if planned.Failure? { return Failure(planned.error); }
      FlattenTo(sorted, k, blobs);
      specs := specs + planned.value;
    }
    assert sorted[..|sorted|] == sorted;
    forall gp | gp in g ensures gp in blobs { assert gp in sorted; }
    assert blobs == GroupBlobs(g, quantize, policy);
    r := Success(specs);
  }

  /** If a group's blobs use t exactly when the group holds c, so do all the blobs
      exactly when c is in a group. */
  lemma GroupedUses(sel: Selection, inv: Inventory, names: seq<string>, gps: seq<string>,
          blobs: map<string, seq<BlobSpec>>, t: SourceTensor, c: Option<SourceTensor>)
    requires WellKeyed(inv) && Known(inv, names) && (c.Some? ==> Own(inv, c.value))
    requires blobs.Keys == Grouping(sel, inv, names).Keys && DistinctNames(gps) && forall x :: x in gps <==> x in blobs
    requires forall gp | gp in blobs ::
               Uses(blobs[gp], t) == if c.Some? && c.value in Grouping(sel, inv, names)[gp] then 1 else 0
    ensures Uses(Flatten(gps, blobs), t) ==
            if c.Some? && c.value.name in names && sel(c.value.name).Some? then 1 else 0
  {
    hide Uses, Grouping, Flatten, SortedNames, DistinctNames;
    GroupingIs(sel, inv, names);
    if c.Some? && c.value.name in names && sel(c.value.name).Some? {
      UsesFlatten(gps, blobs, t, sel(c.value.name).value);
    } else {
      UsesNowhere(gps, blobs, t);
    }
  }

  /** The groups use each grouped tensor once. */
  lemma GroupPartUses(sel: Selection, inv: Inventory, names: seq<string>, quantize: string, policy: Policy,
          t: SourceTensor)
    requires WellKeyed(inv) && Known(inv, names) && AllStack(Grouping(sel, inv, names), quantize, policy)
    ensures Uses(GroupPart(Grouping(sel, inv, names), quantize, policy), t) ==
            if Own(inv, t) && t.name in names && sel(t.name).Some? then 1 else 0
  {
    hide Uses, ExpertGroupPlan, Grouping, Flatten, SortedNames, DistinctNames;
    var g := Grouping(sel, inv, names);
    var blobs := GroupBlobs(g, quantize, policy);
    var c := if Own(inv, t) then Some(t) else None;
    GroupingIs(sel, inv, names);
    forall gp | gp in g ensures Uses(blobs[gp], t) == if c.Some? && c.value in g[gp] then 1 else 0 {
      ExpertGroupUses(gp, g[gp], quantize, policy, t);
    }
    assert blobs.Keys == g.Keys;
    SortedNamesAre(g.Keys);
    GroupedUses(sel, inv, names, SortedNames(g.Keys), blobs, t, c);
  }
}
