/** A planned expert group uses each of its tensors once, expert i at slot i. */
module ExpertConservation {
  import opened Results
  import opened PlanNames
  import opened PlanTypes
  import opened PlanExperts

  lemma {:induction false} CountOne<T>(s: seq<T>, k: nat)
    requires k < |s| && forall i | 0 <= i < |s| && i != k :: s[i] != s[k]
    ensures multiset(s)[s[k]] == 1
  {
    assert s == s[..k] + [s[k]] + s[k + 1..];
    assert s[k] !in s[..k] && s[k] !in s[k + 1..];
  }

  /** Expert i of a projection carries the name that says so. */
  lemma EntryName(gp: string, ts: seq<SourceTensor>, m: map<string, ByIndex<SourceTensor>>, p: string, i: nat)
    requires Filed(gp, Names(ts), ts, m) && Holds(m, p, i)
    ensures m[p][i].name == ExpertName(gp, i, p) && m[p][i] in ts
    ensures ParseExpertTensor(gp, m[p][i].name) == Some((i, p))
  {
    hide ParseExpertTensor, ExpertName;
    assert Comes(gp, Names(ts), ts, p, i, m[p][i]);
    ParseIsName(gp, m[p][i].name, i, p);
  }

  /** How often projection p's stack uses a tensor: the group's own ones once each. */
  function Share(gp: string, ts: seq<SourceTensor>, p: string, t: SourceTensor): nat {
    var at := ParseExpertTensor(gp, t.name);
    if t in ts && at.Some? && at.value.1 == p then 1 else 0
  }

  /** If t is one of the projection's experts, it is at its index. */
  ghost predicate AtIndex(gp: string, ts: seq<SourceTensor>, p: string, s: seq<SourceTensor>, t: SourceTensor) {
    Share(gp, ts, p, t) == 1 ==>
      var i := ParseExpertTensor(gp, t.name).value.0;
      i < |s| && s[i] == t
  }

  /** s[i] is the projection's expert i. */
  ghost predicate IsExpert(gp: string, ts: seq<SourceTensor>, p: string, t: SourceTensor, i: nat) {
    t in ts && ParseExpertTensor(gp, t.name) == Some((i, p))
  }

  /** A list with the projection's experts, each at its index, and nothing else. */
  ghost predicate Slotted(gp: string, ts: seq<SourceTensor>, p: string, s: seq<SourceTensor>) {
    (forall i | 0 <= i < |s| :: IsExpert(gp, ts, p, s[i], i)) && forall t | t in ts :: AtIndex(gp, ts, p, s, t)
  }

  lemma SlottedUses(gp: string, ts: seq<SourceTensor>, p: string, s: seq<SourceTensor>, t: SourceTensor)
    requires Slotted(gp, ts, p, s)
    ensures multiset(s)[t] == Share(gp, ts, p, t)
  {
    hide ParseExpertTensor;
    if Share(gp, ts, p, t) == 1 {
      CountOne(s, ParseExpertTensor(gp, t.name).value.0);
    } else {
      assert t !in s;
    }
  }

  lemma StackUses(gp: string, ts: seq<SourceTensor>, m: map<string, ByIndex<SourceTensor>>, p: string, t: SourceTensor)
    requires Filed(gp, Names(ts), ts, m) && p in m && Contiguous(m[p])
    ensures multiset(InOrder(m[p]))[t] == Share(gp, ts, p, t)
  {
    hide ParseExpertTensor, ExpertName;
    var s := InOrder(m[p]);
    forall i | 0 <= i < |s| ensures IsExpert(gp, ts, p, s[i], i) {
      assert Holds(m, p, i);
      EntryName(gp, ts, m, p, i);
    }
    forall t | t in ts ensures AtIndex(gp, ts, p, s, t) {
      var k :| 0 <= k < |ts| && ts[k] == t;
      assert PlacedAt(gp, Names(ts), ts, m, k);
    }
    hide AtIndex, IsExpert;
    SlottedUses(gp, ts, p, s, t);
  }

  /** Each tensor of a planned group is a source once; no other tensor is. */
  lemma ExpertGroupUses(gp: string, ts: seq<SourceTensor>, quantize: string, policy: Policy, t: SourceTensor)
    requires ExpertGroupPlan(gp, ts, quantize, policy).Some?
    ensures Uses(ExpertGroupPlan(gp, ts, quantize, policy).value, t) == if t in ts then 1 else 0
  {
    hide Uses, TensorUses, ParseExpertTensor, Homogeneous, SameLayout, InOrder, Contiguous, ByProjection, Stacks,
         SortedNames;
    var m := ByProjection(gp, Names(ts), ts).value;
    ByProjectionFiles(gp, Names(ts), ts);
    SortedNamesAre(m.Keys);
    var projs := SortedNames(m.Keys);
    HomogeneousUses(gp, Stacks(gp, projs, m, quantize, policy), t);
    forall k | 0 <= k < |projs| ensures multiset(InOrder(m[projs[k]]))[t] == Share(gp, ts, projs[k], t) {
      assert projs[k] in m;
      StackUses(gp, ts, m, projs[k], t);
    }
    OwnerUses(gp, ts, ts, m, projs, Stacks(gp, projs, m, quantize, policy), t, t);
  }

  /** When each projection's stack uses t as often as its share of c, all of them
      together use t once if c is in the group. */
  lemma OwnerUses<T>(gp: string, ts: seq<SourceTensor>, items: seq<T>, m: map<string, ByIndex<T>>,
                     projs: seq<string>, specs: seq<TensorSpec>, t: SourceTensor, c: SourceTensor)
    requires |items| == |ts| && Filed(gp, Names(ts), items, m)
    requires DistinctNames(projs) && (forall p :: p in projs <==> p in m) && |specs| == |projs|
    requires forall k | 0 <= k < |projs| :: multiset(specs[k].sources)[t] == Share(gp, ts, projs[k], c)
    ensures TensorUses(specs, t) == if c in ts then 1 else 0
  {
    hide TensorUses, ParseExpertTensor, ExpertName;
    if c in ts {
      var k :| 0 <= k < |ts| && ts[k] == c;
      assert PlacedAt(gp, Names(ts), items, m, k);
      var owner := ParseExpertTensor(gp, c.name).value.1;
      assert owner in projs;
      var j :| 0 <= j < |projs| && projs[j] == owner;
      OnlyUses(specs, t, j);
    } else {
      OnlyUses(specs, t, -1);
    }
  }

  // ---- Slots --------------------------------------------------------------

  /** A stack of count experts: the source at slot i is named expert i of it. */
  ghost predicate InSlots(gp: string, spec: TensorSpec, count: nat) {
    |spec.sources| == count && spec.transform == StackExperts &&
    exists proj :: spec.name == StackedName(gp, proj) &&
      forall i | 0 <= i < count :: spec.sources[i].name == ExpertName(gp, i, proj)
  }

  lemma StacksInSlots(gp: string, ts: seq<SourceTensor>, projs: seq<string>, m: map<string, ByIndex<SourceTensor>>,
          quantize: string, policy: Policy, count: nat)
    requires Stackable(m) && (forall p | p in projs :: p in m) && Filed(gp, Names(ts), ts, m)
    requires forall p | p in m :: |m[p]| == count
    ensures forall s | s in Stacks(gp, projs, m, quantize, policy) :: InSlots(gp, s, count)
  {
    hide ParseExpertTensor, ExpertName, StackedName, InSlots, InOrder, Stacks, Stack, Filed, Contiguous;
    var specs := Stacks(gp, projs, m, quantize, policy);
    forall k | 0 <= k < |specs| ensures InSlots(gp, specs[k], count) {
      assert projs[k] in projs;
      StackInSlots(gp, ts, projs[k], m, quantize, policy);
    }
    forall s | s in specs ensures InSlots(gp, s, count) {
      var k :| 0 <= k < |specs| && specs[k] == s;
    }
  }

  lemma StackInSlots(gp: string, ts: seq<SourceTensor>, p: string, m: map<string, ByIndex<SourceTensor>>,
          quantize: string, policy: Policy)
    requires Stackable(m) && Filed(gp, Names(ts), ts, m) && p in m
    ensures InSlots(gp, Stack(gp, p, InOrder(m[p]), quantize, policy), |m[p]|)
  {
    hide ParseExpertTensor, ExpertName, StackedName;
    var s := Stack(gp, p, InOrder(m[p]), quantize, policy);
    forall i | 0 <= i < |m[p]| ensures s.sources[i].name == ExpertName(gp, i, p) {
      assert Holds(m, p, i);
      EntryName(gp, ts, m, p, i);
    }
    assert s.name == StackedName(gp, p);
  }

  ghost predicate AllInSlots(gp: string, blobs: seq<BlobSpec>, count: nat) {
    forall b, s | b in blobs && s in b.tensors :: InSlots(gp, s, count)
  }

  /** Every stack of a planned group has as many experts, expert i at slot i. */
  lemma ExpertsInSlots(gp: string, ts: seq<SourceTensor>, quantize: string, policy: Policy)
    requires ExpertGroupPlan(gp, ts, quantize, policy).Some?
    ensures exists count: nat :: AllInSlots(gp, ExpertGroupPlan(gp, ts, quantize, policy).value, count)
  {
    hide ParseExpertTensor, InSlots, SameLayout, InOrder, Contiguous, ByProjection, Stacks, SortedNames, Homogeneous;
    var m := ByProjection(gp, Names(ts), ts).value;
    ByProjectionFiles(gp, Names(ts), ts);
    SortedNamesAre(m.Keys);
    var projs := SortedNames(m.Keys);
    var count := if projs == [] then 0 else |m[projs[0]]|;
    assert forall p | p in m :: p in projs;
    StacksInSlots(gp, ts, projs, m, quantize, policy, count);
    HomogeneousTensors(gp, Stacks(gp, projs, m, quantize, policy));
    assert AllInSlots(gp, ExpertGroupPlan(gp, ts, quantize, policy).value, count);
  }

  lemma HomogeneousTensors(gp: string, ts: seq<TensorSpec>)
    ensures forall b, s | b in Homogeneous(gp, ts) && s in b.tensors :: s in ts
  {}
}
