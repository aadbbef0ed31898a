/** A block-FP8 plan uses every tensor once, a scale wherever its weight is. */
module Fp8Conservation {
  import opened Results
  import opened PlanNames
  import opened PlanTypes
  import opened PlanExperts
  import opened ExpertConservation
  import opened PlanGroups
  import opened Fp8Plan

  /** The tensor that carries t into the plan: the weight t scales, otherwise t. */
  ghost function Carrier(inv: Inventory, t: SourceTensor): Option<SourceTensor> {
    if !Own(inv, t) then None
    else if exists w :: Scales(inv, w, t.name) then
      var w :| Scales(inv, w, t.name);
      Some(inv[w])
    else Some(t)
  }

  /** t is w's tensor or w's scale exactly if w carries it. */
  lemma CarriedBy(inv: Inventory, w: string, t: SourceTensor)
    requires WellKeyed(inv) && w in inv && w !in Consumed(inv)
    ensures Carrier(inv, t) == Some(inv[w]) <==>
            t == inv[w] || (IsFp8Weight(inv, w) && t == ScaleOf(inv, w))
    ensures IsFp8Weight(inv, w) ==> inv[w] != ScaleOf(inv, w)
  {
    hide HasSuffix, IsE4M3, ScaleFor;
    if IsFp8Weight(inv, w) {
      var s := ScaleFor(inv, w).value;
      assert Scales(inv, w, s);
      ScaleUnique(inv, w, w, s);
      if v :| Scales(inv, v, s) { ScaleUnique(inv, v, w, s); }
    }
    if v :| Scales(inv, v, t.name) {
      assert t.name in Consumed(inv);
      forall u | Scales(inv, u, t.name) ensures u == v { ScaleUnique(inv, u, v, t.name); }
    }
  }

  lemma WeightStays(inv: Inventory, w: string)
    requires IsFp8Weight(inv, w)
    ensures w !in Consumed(inv)
  {
    hide HasSuffix, IsE4M3, ScaleFor;
    if w in Consumed(inv) {
      var v :| v in inv && IsFp8Weight(inv, v) && ScaleFor(inv, v).value == w;
      ScaleUnique(inv, v, v, w);
    }
  }

  /** A carrier is never a folded scale. */
  lemma CarrierStays(inv: Inventory, t: SourceTensor)
    requires WellKeyed(inv) && Own(inv, t)
    ensures Carrier(inv, t).Some? && Own(inv, Carrier(inv, t).value) && Carrier(inv, t).value.name !in Consumed(inv)
    ensures t.name in Consumed(inv) ==> IsFp8Weight(inv, Carrier(inv, t).value.name)
    ensures t.name !in Consumed(inv) ==> Carrier(inv, t).value == t
  {
    hide HasSuffix, IsE4M3, ScaleFor;
    forall w | IsFp8Weight(inv, w) ensures w !in Consumed(inv) { WeightStays(inv, w); }
    if t.name in Consumed(inv) {
      var w :| w in inv && IsFp8Weight(inv, w) && ScaleFor(inv, w).value == t.name;
      assert Scales(inv, w, t.name);
      forall u | Scales(inv, u, t.name) ensures u == w { ScaleUnique(inv, u, w, t.name); }
    }
  }

  // ---- Blobs of their own -------------------------------------------------

  lemma OwnBlobUses(inv: Inventory, name: string, target: string, policy: Policy, t: SourceTensor)
    requires WellKeyed(inv) && name in inv && name !in Consumed(inv)
    ensures Uses([OwnBlob(inv, name, target, policy)], t) == if Carrier(inv, t) == Some(inv[name]) then 1 else 0
  {
    hide Uses, TensorUses, Consumed, Carrier, ScaleFor, HasSuffix, IsE4M3;
    CarriedBy(inv, name, t);
    if IsFp8Weight(inv, name) {
      var b := DecodedBlob(inv, name, target, policy);
      OneBlobUses(b.name, b.tensors, b.metadata, t);
      TensorUsesSnoc([], b.tensors[0], t);
      assert [] + b.tensors == b.tensors;
    } else {
      PlainUses(name, inv[name], "", t);
    }
  }

  lemma OwnPartUses(inv: Inventory, names: seq<string>, target: string, policy: Policy, t: SourceTensor)
    requires WellKeyed(inv) && Known(inv, names) && DistinctNames(names)
    requires forall n | n in names :: n !in Consumed(inv)
    ensures Uses(Flatten(names, OwnBlobs(inv, target, policy)), t) ==
            if Carrier(inv, t).Some? && Carrier(inv, t).value.name in names then 1 else 0
  {
    hide Uses, Flatten, Consumed, OwnBlob, DistinctNames, Carrier;
    var blobs := OwnBlobs(inv, target, policy);
    forall x | x in names ensures Uses(blobs[x], t) == if Carrier(inv, t) == Some(inv[x]) then 1 else 0 {
      OwnBlobUses(inv, x, target, policy, t);
    }
    CarrierOwn(inv, t);
    if Carrier(inv, t).Some? {
      UsesFlatten(names, blobs, t, Carrier(inv, t).value.name);
    } else {
      UsesNowhere(names, blobs, t);
    }
  }

  lemma CarrierOwn(inv: Inventory, t: SourceTensor)
    requires WellKeyed(inv)
    ensures Carrier(inv, t).Some? <==> Own(inv, t)
    ensures Carrier(inv, t).Some? ==> Own(inv, Carrier(inv, t).value)
  {
    hide Consumed, Carrier;
    if Own(inv, t) { CarrierStays(inv, t); } else { NoCarrier(inv, t); }
  }

  lemma NoCarrier(inv: Inventory, t: SourceTensor)
    requires !Own(inv, t)
    ensures Carrier(inv, t).None?
  {}

  // ---- Groups of FP8 experts ----------------------------------------------

  /** A group's tensors are FP8 weights of the inventory. */
  ghost predicate Fp8Members(inv: Inventory, ts: seq<SourceTensor>) {
    forall t | t in ts :: Own(inv, t) && IsFp8Weight(inv, t.name) && t.name !in Consumed(inv)
  }

  lemma {:induction false} CountMatched<A, B>(xs: seq<A>, ys: seq<B>, x: A, y: B)
    requires |xs| == |ys| && forall i | 0 <= i < |xs| :: xs[i] == x <==> ys[i] == y
    ensures multiset(xs)[x] == multiset(ys)[y]
  {
    if xs != [] {
      CountMatched(xs[1..], ys[1..], x, y);
      assert xs == [xs[0]] + xs[1..] && ys == [ys[0]] + ys[1..];
    }
  }

  lemma CountNone<A>(xs: seq<A>, x: A)
    requires x !in xs
    ensures multiset(xs)[x] == 0
  {}

  /** A decoded stack uses the tensors that its weights carry. */
  lemma Fp8StackUses(gp: string, ts: seq<SourceTensor>, inv: Inventory, p: string, t: SourceTensor)
    requires WellKeyed(inv) && Fp8Members(inv, ts) && Fp8ByProjection(gp, ts, inv).Some?
    requires p in Fp8ByProjection(gp, ts, inv).value && Contiguous(Fp8ByProjection(gp, ts, inv).value[p])
    ensures var es := InOrder(Fp8ByProjection(gp, ts, inv).value[p]);
            multiset(Weights(es) + ScalesOf(es))[t] ==
            if Carrier(inv, t).Some? then Share(gp, ts, p, Carrier(inv, t).value) else 0
  {
    hide Fp8ByProjection, ParseExpertTensor, ExpertName, Carrier, ScaleFor, IsFp8Weight, Consumed, Share;
    var m := Fp8ByProjection(gp, ts, inv).value;
    var es := InOrder(m[p]);
    var ws, ss := Weights(es), ScalesOf(es);
    Fp8Slotted(gp, ts, inv, p);
    forall i | 0 <= i < |es| ensures Carrier(inv, t) == Some(ws[i]) <==> t == ws[i] || t == ss[i] {
      assert WithScale(inv, es[i]);
      CarriedBy(inv, ws[i].name, t);
    }
    CarrierOwn(inv, t);
    if Carrier(inv, t).None? {
      CountNone(ws, t);
      CountNone(ss, t);
    } else {
      var c := Carrier(inv, t).value;
      SlottedUses(gp, ts, p, ws, c);
      CarrierStays(inv, t);
      if c == t {
        CountNone(ss, t) by {
          forall i | 0 <= i < |ss| ensures ss[i] != t { CarriedBy(inv, ws[i].name, t); }
        }
      } else {
        CountNone(ws, t);
        CountMatched(ss, ws, t, c);
      }
    }
    assert multiset(ws + ss)[t] == multiset(ws)[t] + multiset(ss)[t];
  }

  /** An FP8 weight of the inventory, with its scale. */
  ghost predicate WithScale(inv: Inventory, e: Expert) {
    Own(inv, e.weight) && IsFp8Weight(inv, e.weight.name) && e.weight.name !in Consumed(inv) &&
    e.scale == ScaleOf(inv, e.weight.name)
  }

  /** The weight of this name, and its scale. */
  ghost predicate ScaledExpert(inv: Inventory, weight: SourceTensor, scale: SourceTensor, name: string) {
    weight.name == name && ScaleFor(inv, name).Some? && scale == ScaleOf(inv, name)
  }

  lemma Fp8Entry(gp: string, ts: seq<SourceTensor>, inv: Inventory, m: map<string, ByIndex<Expert>>, p: string, i: nat)
    requires AllScaled(inv, ts) && Filed(gp, Names(ts), Experts(inv, ts), m) && Holds(m, p, i)
    ensures m[p][i].weight in ts && ParseExpertTensor(gp, m[p][i].weight.name) == Some((i, p))
    ensures ScaledExpert(inv, m[p][i].weight, m[p][i].scale, ExpertName(gp, i, p))
  {
    hide ParseExpertTensor, ExpertName, ScaleFor;
    assert Comes(gp, Names(ts), Experts(inv, ts), p, i, m[p][i]);
    ParseIsName(gp, m[p][i].weight.name, i, p);
  }

  lemma Fp8WithScale(gp: string, ts: seq<SourceTensor>, inv: Inventory, m: map<string, ByIndex<Expert>>, p: string,
          i: nat)
    requires Fp8Members(inv, ts) && AllScaled(inv, ts) && Filed(gp, Names(ts), Experts(inv, ts), m) && Holds(m, p, i)
    ensures WithScale(inv, m[p][i])
  {
    hide ParseExpertTensor, ExpertName, Consumed, ScaleFor, Own, IsFp8Weight, ScaleOf, Filed, AllScaled;
    Fp8Entry(gp, ts, inv, m, p, i);
  }

  lemma Fp8Placed(gp: string, ts: seq<SourceTensor>, inv: Inventory, m: map<string, ByIndex<Expert>>, p: string,
          t: SourceTensor)
    requires AllScaled(inv, ts) && Filed(gp, Names(ts), Experts(inv, ts), m) && t in ts && p in m && Contiguous(m[p])
    ensures AtIndex(gp, ts, p, Weights(InOrder(m[p])), t)
  {
    hide ParseExpertTensor, AllScaled;
    var k :| 0 <= k < |ts| && ts[k] == t;
    assert PlacedAt(gp, Names(ts), Experts(inv, ts), m, k);
  }

  /** The weights of a filed projection, each with its own scale. */
  lemma Fp8Slotted(gp: string, ts: seq<SourceTensor>, inv: Inventory, p: string)
    requires Fp8Members(inv, ts) && Fp8ByProjection(gp, ts, inv).Some?
    requires p in Fp8ByProjection(gp, ts, inv).value && Contiguous(Fp8ByProjection(gp, ts, inv).value[p])
    ensures var es := InOrder(Fp8ByProjection(gp, ts, inv).value[p]);
            Slotted(gp, ts, p, Weights(es)) && forall i | 0 <= i < |es| :: WithScale(inv, es[i])
  {
    hide Fp8ByProjection, ParseExpertTensor, ExpertName, Fp8Members, Filed, AllScaled, Experts, WithScale, AtIndex,
         ScaledExpert;
    var m := Fp8ByProjection(gp, ts, inv).value;
    var es := InOrder(m[p]);
    Fp8Files(gp, ts, inv);
    var ws := Weights(es);
    forall i | 0 <= i < |es| ensures IsExpert(gp, ts, p, ws[i], i) && WithScale(inv, es[i]) {
      assert Holds(m, p, i);
      Fp8Entry(gp, ts, inv, m, p, i);
      Fp8WithScale(gp, ts, inv, m, p, i);
    }
    forall t | t in ts ensures AtIndex(gp, ts, p, ws, t) {
      Fp8Placed(gp, ts, inv, m, p, t);
    }
    hide IsExpert;
  }

  /** A decoded group uses once each tensor that its weights carry. */
  lemma Fp8GroupUses(gp: string, ts: seq<SourceTensor>, inv: Inventory, target: string, policy: Policy, t: SourceTensor)
    requires WellKeyed(inv) && Fp8Members(inv, ts) && Fp8GroupPlan(gp, ts, inv, target, policy).Some?
    ensures Uses(Fp8GroupPlan(gp, ts, inv, target, policy).value, t) ==
            if Carrier(inv, t).Some? && Carrier(inv, t).value in ts then 1 else 0
  {
    hide Uses, TensorUses, ParseExpertTensor, Homogeneous, SameExpertLayout, InOrder, Contiguous, Fp8ByProjection,
         SortedNames,
         Carrier, Fp8Stacks, Fp8Members, Weights, ScalesOf, Filed, Names, DistinctNames, AllScaled, Experts, Share;
    var m := Fp8ByProjection(gp, ts, inv).value;
    Fp8Files(gp, ts, inv);
    SortedNamesAre(m.Keys);
    var projs := SortedNames(m.Keys);
    var specs := Fp8Stacks(gp, projs, m, target, policy);
    HomogeneousUses(gp, specs, t);
    forall k | 0 <= k < |projs| ensures multiset(specs[k].sources)[t] ==
        (if Carrier(inv, t).Some? then Share(gp, ts, projs[k], Carrier(inv, t).value) else 0) {
      assert projs[k] in m;
      Fp8StackUses(gp, ts, inv, projs[k], t);
    }
    if Carrier(inv, t).Some? {
      OwnerUses(gp, ts, Experts(inv, ts), m, projs, specs, t, Carrier(inv, t).value);
    } else {
      OnlyUses(specs, t, -1);
    }
  }

  // ---- Slots --------------------------------------------------------------

  /** A decoded stack: the weights of experts 0, 1, ..., then their scales in the same order. */
  ghost predicate Fp8InSlots(gp: string, inv: Inventory, spec: TensorSpec, count: nat) {
    |spec.sources| == 2 * count && spec.transform == DecodeStackFP8 &&
    exists proj :: spec.name == StackedName(gp, proj) &&
      forall i | 0 <= i < count :: ScaledExpert(inv, spec.sources[i], spec.sources[count + i], ExpertName(gp, i, proj))
  }

  ghost predicate AllFp8InSlots(gp: string, inv: Inventory, blobs: seq<BlobSpec>, count: nat) {
    forall b, s | b in blobs && s in b.tensors :: Fp8InSlots(gp, inv, s, count)
  }

  lemma HomogeneousInSlots(gp: string, inv: Inventory, specs: seq<TensorSpec>, count: nat)
    requires forall s | s in specs :: Fp8InSlots(gp, inv, s, count)
    ensures AllFp8InSlots(gp, inv, Homogeneous(gp, specs), count)
  {
    hide Fp8InSlots, Homogeneous;
    HomogeneousTensors(gp, specs);
  }

  lemma Fp8StackInSlots(gp: string, ts: seq<SourceTensor>, inv: Inventory, p: string, target: string, policy: Policy)
    requires Fp8ByProjection(gp, ts, inv).Some? && p in Fp8ByProjection(gp, ts, inv).value
    requires Contiguous(Fp8ByProjection(gp, ts, inv).value[p]) && Fp8ByProjection(gp, ts, inv).value[p] != map[]
    ensures var es := Fp8ByProjection(gp, ts, inv).value[p];
            Fp8InSlots(gp, inv, Fp8Stack(gp, p, InOrder(es), target, policy), |es|)
  {
    hide Fp8ByProjection, ParseExpertTensor, ExpertName, StackedName, ScaledExpert, AllScaled, Experts, Filed;
    var m := Fp8ByProjection(gp, ts, inv).value;
    var es := InOrder(m[p]);
    var s := Fp8Stack(gp, p, es, target, policy);
    Fp8Files(gp, ts, inv);
    forall i | 0 <= i < |es| ensures ScaledExpert(inv, s.sources[i], s.sources[|es| + i], ExpertName(gp, i, p)) {
      assert Holds(m, p, i);
      Fp8Entry(gp, ts, inv, m, p, i);
      assert s.sources[i] == Weights(es)[i] && s.sources[|es| + i] == ScalesOf(es)[i];
    }
    assert s.name == StackedName(gp, p);
  }

  /** Every decoded stack of a group has as many experts, expert i's weight at slot i
      and its scale at slot N + i. */
  lemma Fp8ExpertsInSlots(gp: string, ts: seq<SourceTensor>, inv: Inventory, target: string, policy: Policy)
    requires Fp8GroupPlan(gp, ts, inv, target, policy).Some?
    ensures exists count: nat :: AllFp8InSlots(gp, inv, Fp8GroupPlan(gp, ts, inv, target, policy).value, count)
  {
    hide Fp8InSlots, SameExpertLayout, InOrder, Contiguous, Fp8ByProjection, Fp8Stack, Fp8Stacks, SortedNames,
         Homogeneous;
    var m := Fp8ByProjection(gp, ts, inv).value;
    Fp8Files(gp, ts, inv);
    SortedNamesAre(m.Keys);
    var projs := SortedNames(m.Keys);
    var count := if projs == [] then 0 else |m[projs[0]]|;
    var specs := Fp8Stacks(gp, projs, m, target, policy);
    forall s | s in specs ensures Fp8InSlots(gp, inv, s, count) {
      var k :| 0 <= k < |specs| && specs[k] == s;
      assert projs[k] in m && projs[0] in m;
      Fp8StackInSlots(gp, ts, inv, projs[k], target, policy);
    }
    HomogeneousInSlots(gp, inv, specs, count);
    assert AllFp8InSlots(gp, inv, Fp8GroupPlan(gp, ts, inv, target, policy).value, count);
  }

  // ---- The whole plan -----------------------------------------------------

  lemma Fp8GroupsAre(layer: string -> bool, inv: Inventory, names: seq<string>)
    requires WellKeyed(inv) && Known(inv, names)
    ensures var g := Grouping(Fp8Experts(layer, inv), inv, names); forall gp | gp in g :: Fp8Members(inv, g[gp])
  {
    hide Grouping, Consumed, IsFp8Weight, PerExpertGroup;
    GroupingIs(Fp8Experts(layer, inv), inv, names);
  }

  lemma Fp8GroupPartUses(layer: string -> bool, inv: Inventory, names: seq<string>, target: string, policy: Policy,
          t: SourceTensor)
    requires WellKeyed(inv) && Known(inv, names)
    requires AllDecode(Grouping(Fp8Experts(layer, inv), inv, names), inv, target, policy)
    ensures Uses(Fp8GroupPart(Grouping(Fp8Experts(layer, inv), inv, names), inv, target, policy), t) ==
            if Carrier(inv, t).Some? && Carrier(inv, t).value.name in names &&
               Fp8Experts(layer, inv)(Carrier(inv, t).value.name).Some? then 1 else 0
  {
    hide Uses, Fp8GroupPlan, Grouping, Flatten, SortedNames, DistinctNames, Carrier, Fp8Experts, Fp8Members;
    var sel := Fp8Experts(layer, inv);
    var g := Grouping(sel, inv, names);
    CarrierOwn(inv, t);
    Fp8GroupsAre(layer, inv, names);
    var blobs := Fp8GroupBlobs(g, inv, target, policy);
    forall gp | gp in g
      ensures Uses(blobs[gp], t) == if Carrier(inv, t).Some? && Carrier(inv, t).value in g[gp] then 1 else 0
    {
      Fp8GroupUses(gp, g[gp], inv, target, policy, t);
    }
    assert blobs.Keys == g.Keys;
    SortedNamesAre(g.Keys);
    GroupedUses(sel, inv, names, SortedNames(g.Keys), blobs, t, Carrier(inv, t));
  }

  lemma Fp8Uses(layer: string -> bool, inv: Inventory, target: string, policy: Policy, t: SourceTensor)
    requires WellKeyed(inv) && Fp8Planned(layer, inv, target, policy).Some?
    ensures Uses(Fp8Planned(layer, inv, target, policy).value, t) == if Own(inv, t) then 1 else 0
  {
    hide Uses, GroupPart, Fp8GroupPart, SortedNames, PerExpertGroup, Grouping, Ungrouped, Flatten, OwnBlob, Consumed,
         Carrier,
         IsFp8Weight, AllStack, AllDecode, DistinctNames;
    SortedNamesAre(inv.Keys);
    var names := SortedNames(inv.Keys);
    var kept, decoded := KeptExperts(layer, inv), Fp8Experts(layer, inv);
    UngroupedAre(Absorbed(layer, inv), names);
    var own := Ungrouped(Absorbed(layer, inv), names);
    OwnPartUses(inv, own, target, policy, t);
    GroupPartUses(kept, inv, names, "", policy, t);
    Fp8GroupPartUses(layer, inv, names, target, policy, t);
    var first := Flatten(own, OwnBlobs(inv, target, policy));
    var second := GroupPart(Grouping(kept, inv, names), "", policy);
    var third := Fp8GroupPart(Grouping(decoded, inv, names), inv, target, policy);
    UsesConcat(first + second, third, t);
    UsesConcat(first, second, t);
    CarrierOwn(inv, t);
    if Own(inv, t) { CarrierStays(inv, t); }
  }

  /** A block-FP8 plan uses every tensor of the inventory in exactly one place. */
  lemma Fp8Conserves(layer: string -> bool, inv: Inventory, target: string, policy: Policy)
    requires WellKeyed(inv) && Fp8Planned(layer, inv, target, policy).Some?
    ensures multiset(Sources(Fp8Planned(layer, inv, target, policy).value)) == multiset(inv.Values)
  {
    hide Fp8Planned;
    var specs := Fp8Planned(layer, inv, target, policy).value;
    forall t ensures Uses(specs, t) == multiset(inv.Values)[t] {
      Fp8Uses(layer, inv, target, policy, t);
      assert Own(inv, t) <==> t in inv.Values;
    }
  }
}
