/** The use count of every tensor in a plan of already-quantized weights, and when
    such a plan conserves its tensors. */
module PrequantUse {
  import opened Results
  import opened PlanNames
  import opened PlanTypes
  import PlanExperts
  import ExpertConservation
  import opened PlanGroups
  import opened PlanCheck
  import opened PrequantMatch
  import opened PrequantPlan
  import opened PrequantConservation

  /** t is a Flint expert or fused with one. */
  ghost predicate ExpertUser(layer: string -> bool, inv: Inventory, config: Config, t: SourceTensor) {
    exists w :: w in inv && FlintExperts(layer, config)(w).Some? && UsesIt(inv, config, w, t)
  }

  /** t has a blob of its own or is fused in one. */
  ghost predicate RestUser(layer: string -> bool, inv: Inventory, config: Config, t: SourceTensor) {
    exists x :: x in inv && Taken(layer, inv, config)(x).None? && UsesIt(inv, config, x, t)
  }

  lemma TakenAre(inv: Inventory, config: Config, s: string)
    ensures s in TakenNames(inv, config) <==> exists x :: UsedBy(inv, config, x, s) || DroppedBy(inv, config, x, s)
  {
    hide MatchPrequant;
    if s in TakenNames(inv, config) {
      var x :| x in inv && MatchPrequant(inv, config, x).Some? &&
                s in MatchPrequant(inv, config, x).value.used + MatchPrequant(inv, config, x).value.ignored;
      assert UsedBy(inv, config, x, s) || DroppedBy(inv, config, x, s);
    }
    forall x | UsedBy(inv, config, x, s) || DroppedBy(inv, config, x, s) ensures s in TakenNames(inv, config) {
      assert s in MatchPrequant(inv, config, x).value.used + MatchPrequant(inv, config, x).value.ignored;
    }
  }

  // ---- The expert part ----------------------------------------------------

  lemma PackedPartUses(layer: string -> bool, inv: Inventory, config: Config, names: seq<string>,
          fused: map<string, BlobSpec>, policy: Policy, t: SourceTensor)
    requires WellKeyed(inv) && FusedFrom(inv, config, fused) && forall n :: n in names <==> n in inv
    requires AllPackedOrPlain(Grouping(FlintExperts(layer, config), inv, names), fused, policy)
    ensures Uses(PackedPart(Grouping(FlintExperts(layer, config), inv, names), fused, policy), t) ==
            if ExpertUser(layer, inv, config, t) then 1 else 0
  {
    hide Uses, PackedOrPlain, Grouping, Flatten, SortedNames, DistinctNames, FusedFrom, UsesIt, HasSuffix,
         PerExpertGroup;
    var sel := FlintExperts(layer, config);
    FlintNames(layer, config);
    hide FlintExperts;
    var g := Grouping(sel, inv, names);
    GroupingIs(sel, inv, names);
    SortedNamesAre(g.Keys);
    var blobs := PackedBlobs(g, fused, policy);
    forall gp, v | gp in g && v in g[gp] ensures Own(inv, v) && HasSuffix(v.name, WEIGHT) {}
    hide SomeUses, Own;
    forall gp | gp in g ensures Uses(blobs[gp], t) == if SomeUses(inv, config, g[gp], t) then 1 else 0 {
      PackedOrPlainUses(gp, g[gp], inv, config, fused, policy, t);
    }
    if ExpertUser(layer, inv, config, t) {
      var w :| w in inv && sel(w).Some? && UsesIt(inv, config, w, t);
      ExpertOwner(inv, config, sel, g, w, t);
      UsesFlatten(SortedNames(g.Keys), blobs, t, sel(w).value);
    } else {
      forall gp, v | gp in g && v in g[gp] ensures !UsesIt(inv, config, v.name, t) {
        assert v.name in inv && sel(v.name).Some?;
      }
      UsesNowhere(SortedNames(g.Keys), blobs, t);
    }
  }

  /** Only the group of its expert uses t. */
  lemma FlintNames(layer: string -> bool, config: Config)
    ensures forall n | FlintExperts(layer, config)(n).Some? :: HasSuffix(n, WEIGHT)
  {
    hide HasSuffix;
  }

  lemma ExpertOwner(inv: Inventory, config: Config, sel: Selection, g: map<string, seq<SourceTensor>>, w: string,
          t: SourceTensor)
    requires WellKeyed(inv) && w in inv && sel(w).Some? && UsesIt(inv, config, w, t) && sel(w).value in g
    requires forall n | sel(n).Some? :: HasSuffix(n, WEIGHT)
    requires forall gp, v | gp in g :: v in g[gp] <==> Own(inv, v) && v.name in inv && sel(v.name) == Some(gp)
    ensures SomeUses(inv, config, g[sel(w).value], t)
    ensures forall gp | gp in g && SomeUses(inv, config, g[gp], t) :: gp == sel(w).value
  {
    hide UsesIt, HasSuffix;
    assert inv[w] in g[sel(w).value] && UsesIt(inv, config, inv[w].name, t);
    forall gp, v | gp in g && v in g[gp] && UsesIt(inv, config, v.name, t) ensures gp == sel(w).value {
      SameUser(inv, config, v.name, w, t);
    }
  }

  // ---- The rest -----------------------------------------------------------

  lemma {:induction false} RestBlobAt(names: seq<string>, inv: Inventory, fused: map<string, BlobSpec>)
    requires Known(inv, names)
    ensures var rest := Flatten(names, RestBlobs(inv, fused));
            |rest| == |names| && forall k | 0 <= k < |names| :: rest[k] == RestBlob(inv, fused, names[k])
    decreases |names|
  {
    hide RestBlob;
    if names != [] { RestBlobAt(names[..|names| - 1], inv, fused); }
  }

  /** Where blob names differ, a tensor is fused in one blob only. */
  lemma OneRestUser(inv: Inventory, config: Config, fused: map<string, BlobSpec>, names: seq<string>, x: string,
          y: string, t: SourceTensor)
    requires WellKeyed(inv) && FusedFrom(inv, config, fused) && Known(inv, names) && x in names && y in names
    requires DistinctNames(BlobNames(Flatten(names, RestBlobs(inv, fused))))
    requires x !in TakenNames(inv, config) && y !in TakenNames(inv, config)
    requires UsesIt(inv, config, x, t) && UsesIt(inv, config, y, t)
    ensures x == y
  {
    hide MatchPrequant, Flatten, Companions, TakenNames;
    TakenAre(inv, config, t.name);
    if UsedBy(inv, config, x, t.name) && UsedBy(inv, config, y, t.name) {
      CompanionsShareBase(inv, config, x, y, t.name);
      MatchIs(inv, config, x);
      MatchIs(inv, config, y);
      assert RestBlob(inv, fused, x).name == RestBlob(inv, fused, y).name;
      RestBlobAt(names, inv, fused);
      var i :| 0 <= i < |names| && names[i] == x;
      var j :| 0 <= j < |names| && names[j] == y;
      assert BlobNames(Flatten(names, RestBlobs(inv, fused)))[i] == BlobNames(Flatten(names, RestBlobs(inv, fused)))[j];
    }
  }

  lemma RestPartUses(layer: string -> bool, inv: Inventory, config: Config, names: seq<string>,
          fused: map<string, BlobSpec>, t: SourceTensor)
    requires WellKeyed(inv) && FusedFrom(inv, config, fused) && DistinctNames(names)
    requires forall n :: n in names <==> n in inv && Taken(layer, inv, config)(n).None?
    requires DistinctNames(BlobNames(Flatten(names, RestBlobs(inv, fused))))
    ensures Uses(Flatten(names, RestBlobs(inv, fused)), t) == if RestUser(layer, inv, config, t) then 1 else 0
  {
    hide Uses, FusedFrom, Flatten, DistinctNames, UsesIt, RestBlob, TakenNames, PerExpertGroup;
    var blobs := RestBlobs(inv, fused);
    forall x | x in names ensures Uses(blobs[x], t) == if UsesIt(inv, config, x, t) then 1 else 0 {
      RestBlobUses(inv, config, fused, x, t);
    }
    if RestUser(layer, inv, config, t) {
      var x :| x in inv && Taken(layer, inv, config)(x).None? && UsesIt(inv, config, x, t);
      forall y | y in names && UsesIt(inv, config, y, t) ensures y == x {
        OneRestUser(inv, config, fused, names, x, y, t);
      }
      UsesFlatten(names, blobs, t, x);
    } else {
      UsesNowhere(names, blobs, t);
    }
  }

  // ---- The whole plan -----------------------------------------------------

  /** s is an activation scale that some fused weight drops. */
  ghost predicate Dropped(inv: Inventory, config: Config, s: string) {
    exists x :: DroppedBy(inv, config, x, s)
  }

  /** s is fused both with a Flint expert and with a weight that is none. */
  ghost predicate Doubled(layer: string -> bool, inv: Inventory, config: Config, s: string) {
    exists w, x :: UsedBy(inv, config, w, s) && FlintExperts(layer, config)(w).Some? &&
                   UsedBy(inv, config, x, s) && FlintExperts(layer, config)(x).None?
  }

  ghost function UseCount(layer: string -> bool, inv: Inventory, config: Config, t: SourceTensor): nat {
    if !Own(inv, t) || Dropped(inv, config, t.name) then 0
    else if Doubled(layer, inv, config, t.name) then 2
    else 1
  }

  /** Whether t's users are among the experts, the rest, or both. */
  lemma UsersAre(layer: string -> bool, inv: Inventory, config: Config, t: SourceTensor)
    requires WellKeyed(inv)
    ensures (if ExpertUser(layer, inv, config, t) then 1 else 0) + (if RestUser(layer, inv, config, t) then 1 else 0) ==
            UseCount(layer, inv, config, t)
  {
    hide MatchPrequant, TakenNames, PerExpertGroup, HasSuffix, UsedBy, DroppedBy;
    var s, sel := t.name, FlintExperts(layer, config);
    TakenAre(inv, config, s);
    if Own(inv, t) {
      if s !in TakenNames(inv, config) {
        assert UsesIt(inv, config, s, t);
      } else {
        forall x | UsedBy(inv, config, x, s) || DroppedBy(inv, config, x, s)
          ensures !HasSuffix(s, WEIGHT)
          ensures UsedBy(inv, config, x, s) ==>
                    x in inv && x !in TakenNames(inv, config) && !Dropped(inv, config, s)
        {
          CompanionIsNoWeight(inv, config, x, s);
          UserStays(inv, config, x, s);
        }
        assert sel(s).None?;
        assert forall x | UsedBy(inv, config, x, s) :: UsesIt(inv, config, x, t);
      }
    }
  }

  /** A weight that companions are fused with is no companion, and they are not dropped. */
  lemma UserStays(inv: Inventory, config: Config, x: string, s: string)
    ensures UsedBy(inv, config, x, s) ==> x in inv && x !in TakenNames(inv, config) && !Dropped(inv, config, s)
  {
    hide MatchPrequant, TakenNames, HasSuffix;
    if UsedBy(inv, config, x, s) {
      TakenAre(inv, config, x);
      forall y | UsedBy(inv, config, y, x) || DroppedBy(inv, config, y, x)
        ensures false
      {
        CompanionIsNoWeight(inv, config, y, x);
      }
      forall y | DroppedBy(inv, config, y, s) ensures false { CompanionsShareBase(inv, config, x, y, s); }
    }
  }

  /** What a plan without colliding names uses of each tensor. */
  lemma PrequantUses(layer: string -> bool, inv: Inventory, config: Config, policy: Policy, t: SourceTensor)
    requires WellKeyed(inv) && PrequantPlanned(layer, inv, config, policy).Some?
    requires NoCollisions(PrequantPlanned(layer, inv, config, policy).value)
    ensures Uses(PrequantPlanned(layer, inv, config, policy).value, t) == UseCount(layer, inv, config, t)
  {
    hide Uses, PackedPart, AllPackedOrPlain, SortedNames, Grouping, Ungrouped, Flatten, FusedBlobs, TakenNames,
         RestBlob,
         PerExpertGroup, DistinctNames, BlobNames, TensorNames, UseCount, ExpertUser, RestUser, FusedFrom,
         WithEmbedding;
    SortedNamesAre(inv.Keys);
    var names, taken := SortedNames(inv.Keys), Taken(layer, inv, config);
    UngroupedAre(taken, names);
    EmbeddingKeeps(inv, config);
    var fused := WithEmbedding(config, FusedBlobs(inv, config)).value;
    var own := Ungrouped(taken, names);
    var packed := PackedPart(Grouping(FlintExperts(layer, config), inv, names), fused, policy);
    var rest := Flatten(own, RestBlobs(inv, fused));
    LaterNames(packed, rest);
    PackedPartUses(layer, inv, config, names, fused, policy, t);
    RestPartUses(layer, inv, config, own, fused, t);
    UsesConcat(packed, rest, t);
    UsersAre(layer, inv, config, t);
  }

  lemma LaterNames(a: seq<BlobSpec>, b: seq<BlobSpec>)
    requires DistinctNames(BlobNames(a + b))
    ensures DistinctNames(BlobNames(b))
  {
    forall i, j | 0 <= i < j < |b| ensures BlobNames(b)[i] != BlobNames(b)[j] {
      assert BlobNames(a + b)[|a| + i] != BlobNames(a + b)[|a| + j];
    }
  }

  // ---- When the plan conserves --------------------------------------------

  /** A Flint expert with scales, whose tensor the model also ships packed. */
  ghost predicate PackedTwin(layer: string -> bool, inv: Inventory, config: Config, w: string) {
    w in inv && FlintExperts(layer, config)(w).Some? && MatchPrequant(inv, config, w).Some? && w + "_packed" in inv
  }

  /** A doubled tensor is fused with a Flint expert and with its packed twin. */
  lemma DoubledHasTwin(layer: string -> bool, inv: Inventory, config: Config, s: string) returns (w: string)
    requires Doubled(layer, inv, config, s)
    ensures PackedTwin(layer, inv, config, w)
  {
    hide MatchPrequant, HasSuffix, PerExpertGroup, Companions;
    var sel := FlintExperts(layer, config);
    var x;
    w, x :| UsedBy(inv, config, w, s) && sel(w).Some? && UsedBy(inv, config, x, s) && sel(x).None?;
    CompanionsShareBase(inv, config, w, x, s);
    BaseOfWeight(inv, config, w);
    MatchIs(inv, config, x);
    var f := MatchPrequant(inv, config, x).value;
    PatternSuffixes(f.pattern);
    assert f.base + ".weight_packed" == (f.base + WEIGHT) + "_packed";
  }

  /** A tensor that specs use is a source of one of them. */
  lemma {:induction false} UsedIsSource(ts: seq<TensorSpec>, w: SourceTensor) returns (s: TensorSpec)
    requires TensorUses(ts, w) > 0
    ensures s in ts && w in s.sources
    decreases |ts|
  {
    hide TensorUses;
    if ts == [] {
      TensorUsesSnoc([], PlainBlob("", w, "").tensors[0], w);
      assert false;
      s := TensorSpec("", [w], Keep, "", "", None);
    } else {
      var front, last := ts[..|ts| - 1], ts[|ts| - 1];
      assert ts == front + [last];
      TensorUsesSnoc(front, last, w);
      if w in last.sources { s := last; } else { s := UsedIsSource(front, w); }
    }
  }

  /** Every expert of a bank has the parts of an NVFP4 expert. */
  lemma BankedHasPart(gp: string, ts: seq<SourceTensor>, fused: map<string, BlobSpec>, policy: Policy, w: SourceTensor)
    requires w in ts && BankPlan(gp, ts, fused, policy).Some?
    ensures PartOf(w, fused).Some?
  {
    hide TensorUses, Uses, PlanExperts.ExpertGroupPlan, BankTensors, PartOf, BankMetadata;
    UnquantizedGroup(gp, ts, policy);
    ExpertConservation.ExpertGroupUses(gp, ts, "", policy, w);
    var plan := PlanExperts.ExpertGroupPlan(gp, ts, "", policy).value;
    OneBlobUses(plan[0].name, plan[0].tensors, plan[0].metadata, w);
    assert plan == [BlobSpec(plan[0].name, plan[0].tensors, plan[0].metadata)];
    var s := UsedIsSource(plan[0].tensors, w);
  }

  /** Without a bias, a weight ending in .weight that stores two companions is NVFP4. */
  lemma TwoPartsAreNvfp4(inv: Inventory, config: Config, fused: map<string, BlobSpec>, x: string)
    requires WellKeyed(inv) && FusedFrom(inv, config, fused) && x in inv && HasSuffix(x, WEIGHT) &&
              PartOf(inv[x], fused).Some?
    ensures MatchPrequant(inv, config, x).Some?
    ensures UsedBy(inv, config, x, MatchPrequant(inv, config, x).value.base + ".weight_scale")
  {
    hide MatchWith, HasSuffix;
    PartUsed(inv, config, fused, inv[x]);
    MatchIs(inv, config, x);
    BaseOfWeight(inv, config, x);
    var f := MatchPrequant(inv, config, x).value;
    assert fused[x].tensors == f.spec.tensors;
    MatchedBy(PATTERNS, inv, config, x);
    GlobalTensor(f.pattern, inv, config, x);
  }

  /** A match is one of its pattern's. */
  lemma {:induction false} MatchedBy(ps: seq<Pattern>, inv: Inventory, config: Config, x: string)
    requires x in inv
    ensures var m := MatchFirst(ps, inv, config, x);
            m.Some? ==> m.value.pattern in ps && MatchWith(m.value.pattern, inv, config, x) == m
  {
    if ps != [] {
      PatternKept(ps[0], inv, config, x);
      hide MatchWith;
      MatchedBy(ps[1..], inv, config, x);
    }
  }

  lemma PatternKept(p: Pattern, inv: Inventory, config: Config, x: string)
    requires x in inv
    ensures MatchWith(p, inv, config, x).Some? ==> MatchWith(p, inv, config, x).value.pattern == p
  {
    hide WeightSpec, ScaleSpec, GlobalSpec, Metadata, MatchesDtype, Ignored, CutSuffix;
  }

  /** Only a pattern with a global scale stores a third tensor named for one. */
  lemma GlobalTensor(p: Pattern, inv: Inventory, config: Config, x: string)
    requires x in inv && p in PATTERNS && HasSuffix(x, WEIGHT) && MatchWith(p, inv, config, x).Some?
    requires var f := MatchWith(p, inv, config, x).value;
             |f.spec.tensors| == 3 && f.spec.tensors[2].name == x + ".global_scale" && x == f.base + WEIGHT
    ensures var f := MatchWith(p, inv, config, x).value; f.base + ".weight_scale" in f.used
  {
    hide WeightSpec, ScaleSpec, Metadata, MatchesDtype, Ignored, HasSuffix;
    var f := MatchWith(p, inv, config, x).value;
    var out := f.base + WEIGHT;
    assert (out + ".bias")[|out| + 1] == 'b' && (out + ".global_scale")[|out| + 1] == 'g';
    assert p.globalSuffix != "";
    assert f.used[0] == f.base + p.scaleSuffix && f.used[0] in f.used;
  }

  /** A packed weight whose base has a block scale is fused with it. */
  lemma PackedIsMatched(inv: Inventory, config: Config, base: string)
    requires base + ".weight_packed" in inv && base + ".weight_scale" in inv
    ensures UsedBy(inv, config, base + ".weight_packed", base + ".weight_scale")
  {
    hide WeightSpec, ScaleSpec, GlobalSpec, Metadata, Ignored;
    var x := base + ".weight_packed";
    assert x[|x| - 1] == 'd' && WEIGHT[|WEIGHT| - 1] == 't';
    assert !HasSuffix(x, WEIGHT);
    assert MatchWith(MLX, inv, config, x).None?;
    assert CutSuffix(x, ".weight_packed") == Some(base);
    assert MatchWith(COMPRESSED_NVFP4, inv, config, x).Some?;
    var tail := PATTERNS[1..];
    assert PATTERNS[0] == MLX && tail[0] == COMPRESSED_NVFP4;
    assert MatchFirst(tail, inv, config, x) == MatchWith(COMPRESSED_NVFP4, inv, config, x);
    var f := MatchWith(COMPRESSED_NVFP4, inv, config, x).value;
    assert MatchPrequant(inv, config, x) == Some(f);
    assert f.used[0] == base + ".weight_scale";
  }

  /** A planned Flint expert that is matched is an NVFP4 one. */
  lemma PlannedHasPart(layer: string -> bool, inv: Inventory, config: Config, policy: Policy, w: string)
    requires WellKeyed(inv) && PrequantPlanned(layer, inv, config, policy).Some?
    requires w in inv && FlintExperts(layer, config)(w).Some? && MatchPrequant(inv, config, w).Some?
    ensures WithEmbedding(config, FusedBlobs(inv, config)).Some?
    ensures var fused := WithEmbedding(config, FusedBlobs(inv, config)).value;
            FusedFrom(inv, config, fused) && PartOf(inv[w], fused).Some?
  {
    hide PartOf, MatchPrequant, PerExpertGroup, BankPlan, PlanExperts.ExpertGroupPlan, SortedNames, TakenNames,
         WithEmbedding, Grouping,
         FusedFrom, PackedPart, Flatten, RestBlobs, Taken;
    SortedNamesAre(inv.Keys);
    var names, sel := SortedNames(inv.Keys), FlintExperts(layer, config);
    var g := Grouping(sel, inv, names);
    GroupingIs(sel, inv, names);
    EmbeddingKeeps(inv, config);
    var fused := WithEmbedding(config, FusedBlobs(inv, config)).value;
    var gp := sel(w).value;
    assert inv[w] in g[gp];
    FusedKeys(inv, config, fused, w);
    assert PackedOrPlain(gp, g[gp], fused, policy).Some?;
    assert BankPlan(gp, g[gp], fused, policy).Some?;
    BankedHasPart(gp, g[gp], fused, policy, inv[w]);
  }

  lemma FusedKeys(inv: Inventory, config: Config, fused: map<string, BlobSpec>, w: string)
    requires FusedFrom(inv, config, fused) && w in inv && MatchPrequant(inv, config, w).Some?
    ensures w in fused
  {
    hide MatchPrequant;
  }

  /** A Flint expert's packed twin makes its block scale a source twice. */
  lemma TwinDoubles(layer: string -> bool, inv: Inventory, config: Config, policy: Policy, w: string)
    returns (s: string)
    requires WellKeyed(inv) && PrequantPlanned(layer, inv, config, policy).Some? && PackedTwin(layer, inv, config, w)
    ensures s in inv && Doubled(layer, inv, config, s)
  {
    hide PartOf, MatchPrequant, HasSuffix, PerExpertGroup, PrequantPlanned, WithEmbedding, FusedFrom, FusedBlobs,
         Companions;
    PlannedHasPart(layer, inv, config, policy, w);
    TwoPartsAreNvfp4(inv, config, WithEmbedding(config, FusedBlobs(inv, config)).value, w);
    MatchIs(inv, config, w);
    BaseOfWeight(inv, config, w);
    var base := MatchPrequant(inv, config, w).value.base;
    s := base + ".weight_scale";
    assert base + ".weight_packed" == w + "_packed";
    PackedIsMatched(inv, config, base);
    NotAWeight(base);
  }

  lemma NotAWeight(base: string)
    ensures !HasSuffix(base + ".weight_packed", WEIGHT)
  {
    var x := base + ".weight_packed";
    assert x[|x| - 1] == 'd' && WEIGHT[|WEIGHT| - 1] == 't';
  }

  /** The tensors a plan of quantized weights is meant to keep: all but the dropped
      activation scales. */
  ghost function Kept(inv: Inventory, config: Config): set<SourceTensor> {
    set t | t in inv.Values && !Dropped(inv, config, t.name)
  }

  /** A plan of already-quantized weights uses each kept tensor exactly once if and only
      if no scaled Flint expert is also shipped packed. */
  lemma PrequantConservesIff(layer: string -> bool, inv: Inventory, config: Config, policy: Policy)
    requires WellKeyed(inv) && PrequantPlanned(layer, inv, config, policy).Some?
    requires NoCollisions(PrequantPlanned(layer, inv, config, policy).value)
    ensures multiset(Sources(PrequantPlanned(layer, inv, config, policy).value)) == multiset(Kept(inv, config))
            <==> forall w :: !PackedTwin(layer, inv, config, w)
  {
    hide PrequantPlanned, PackedTwin, Dropped, Doubled, NoCollisions;
    var specs, kept := PrequantPlanned(layer, inv, config, policy).value, Kept(inv, config);
    forall t ensures Uses(specs, t) == UseCount(layer, inv, config, t) && (Own(inv, t) <==> t in inv.Values) {
      PrequantUses(layer, inv, config, policy, t);
    }
    if forall w :: !PackedTwin(layer, inv, config, w) {
      forall t ensures Uses(specs, t) == multiset(kept)[t] {
        if Doubled(layer, inv, config, t.name) {
          var w := DoubledHasTwin(layer, inv, config, t.name);
        }
      }
    } else {
      var w :| PackedTwin(layer, inv, config, w);
      var s := TwinDoubles(layer, inv, config, policy, w);
      DoubledStays(layer, inv, config, s);
      assert Uses(specs, inv[s]) == 2 && multiset(kept)[inv[s]] == 1;
    }
  }

  lemma DoubledStays(layer: string -> bool, inv: Inventory, config: Config, s: string)
    requires Doubled(layer, inv, config, s)
    ensures !Dropped(inv, config, s)
  {
    hide UsedBy, Dropped, FlintExperts;
    var w, x :| UsedBy(inv, config, w, s) && FlintExperts(layer, config)(w).Some? &&
                UsedBy(inv, config, x, s) && FlintExperts(layer, config)(x).None?;
    UserStays(inv, config, w, s);
  }
}
