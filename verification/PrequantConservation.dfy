/** How often a plan of already-quantized weights uses each tensor: activation scales
    never, everything else once, except the scale of a Flint expert that is also
    shipped packed. */
module PrequantConservation {
  import opened Results
  import opened PlanNames
  import opened PlanTypes
  import opened PlanExperts
  import opened ExpertConservation
  import opened PlanGroups
  import opened PrequantMatch
  import opened PrequantPlan

  /** fused is what the matches give, up to metadata. */
  ghost predicate FusedFrom(inv: Inventory, config: Config, fused: map<string, BlobSpec>) {
    fused.Keys == FusedBlobs(inv, config).Keys &&
    forall x | x in fused ::
      var f := MatchPrequant(inv, config, x).value;
      fused[x].name == f.spec.name && fused[x].tensors == f.spec.tensors
  }

  lemma EmbeddingKeeps(inv: Inventory, config: Config)
    ensures var fused := WithEmbedding(config, FusedBlobs(inv, config));
            fused.Some? ==> FusedFrom(inv, config, fused.value)
  {
    hide MatchPrequant;
  }

  /** t is x's tensor or is stored with x. */
  ghost predicate UsesIt(inv: Inventory, config: Config, x: string, t: SourceTensor) {
    Own(inv, t) && (t.name == x || UsedBy(inv, config, x, t.name))
  }

  // ---- Fused blobs --------------------------------------------------------

  lemma RestBlobUses(inv: Inventory, config: Config, fused: map<string, BlobSpec>, x: string, t: SourceTensor)
    requires WellKeyed(inv) && x in inv && FusedFrom(inv, config, fused)
    ensures Uses([RestBlob(inv, fused, x)], t) == if UsesIt(inv, config, x, t) then 1 else 0
  {
    hide Uses, TensorUses, MatchPrequant, Companions;
    if x in fused {
      var b, f := fused[x], MatchPrequant(inv, config, x).value;
      MatchIs(inv, config, x);
      OneBlobUses(b.name, b.tensors, b.metadata, t);
      FusedUses(inv, config, x, t);
    } else {
      PlainUses(x, inv[x], "", t);
    }
  }

  lemma FusedUses(inv: Inventory, config: Config, x: string, t: SourceTensor)
    requires WellKeyed(inv) && x in inv && MatchPrequant(inv, config, x).Some?
    ensures TensorUses(MatchPrequant(inv, config, x).value.spec.tensors, t)
         == if UsesIt(inv, config, x, t) then 1 else 0
  {
    hide TensorUses, MatchPrequant;
    var f := MatchPrequant(inv, config, x).value;
    MatchIs(inv, config, x);
    forall s | s in f.used ensures s != x { CompanionIsNoWeight(inv, config, x, s); }
    var ts := f.spec.tensors;
    forall k | 0 <= k < |ts|
      ensures multiset(ts[k].sources)[t] == if Own(inv, t) && t.name == NameAt(x, f, k) then 1 else 0
    {
      assert ts[k].sources == [inv[NameAt(x, f, k)]];
    }
    forall k | 0 < k < |ts| ensures NameAt(x, f, k) != x { assert f.used[k - 1] in f.used; }
    if UsesIt(inv, config, x, t) {
      if t.name == x {
        OnlyUses(ts, t, 0);
      } else {
        var j :| 0 <= j < |f.used| && f.used[j] == t.name;
        OnlyUses(ts, t, j + 1);
      }
    } else {
      OnlyUses(ts, t, -1);
    }
  }

  /** The name of the only source of a match's tensor k. */
  function NameAt(x: string, f: Fused, k: nat): string
    requires k <= |f.used|
  {
    if k == 0 then x else f.used[k - 1]
  }

  // ---- Banks --------------------------------------------------------------

  /** How often expert w, its scale and its global scale are t. */
  function Triple(w: SourceTensor, p: Part, t: SourceTensor): nat {
    (if t == w then 1 else 0) + (if t == p.scale then 1 else 0) + (if t == p.global then 1 else 0)
  }

  lemma CountFirst<T>(s: seq<T>, x: T)
    requires s != []
    ensures multiset(s)[x] == (if s[0] == x then 1 else 0) + multiset(s[1..])[x]
  {
    assert s == [s[0]] + s[1..];
  }

  /** Of expert w, its scale and its global scale, t is one if w is c, else none. */
  ghost predicate Balanced(w: SourceTensor, p: Part, t: SourceTensor, c: Option<SourceTensor>) {
    Triple(w, p, t) == if c == Some(w) then 1 else 0
  }

  lemma BalancedIs(w: SourceTensor, p: Part, t: SourceTensor, c: Option<SourceTensor>)
    requires Balanced(w, p, t, c)
    ensures (if w == t then 1 else 0) + (if p.scale == t then 1 else 0) + (if p.global == t then 1 else 0)
         == if c == Some(w) then 1 else 0
  {}

  lemma {:induction false} CountTriples(ws: seq<SourceTensor>, ps: seq<Part>, t: SourceTensor, c: Option<SourceTensor>)
    requires |ws| == |ps| && forall k | 0 <= k < |ws| :: Balanced(ws[k], ps[k], t, c)
    ensures multiset(ws)[t] + multiset(ScaleTensors(ps))[t] + multiset(GlobalTensors(ps))[t]
         == if c.Some? then multiset(ws)[c.value] else 0
  {
    if ws != [] {
      hide ScaleTensors, GlobalTensors, Balanced;
      CountTriples(ws[1..], ps[1..], t, c);
      BalancedIs(ws[0], ps[0], t, c);
      CountFirst(ws, t);
      CountFirst(ScaleTensors(ps), t);
      CountFirst(GlobalTensors(ps), t);
      if c.Some? { CountFirst(ws, c.value); }
      assert ScaleTensors(ps)[1..] == ScaleTensors(ps[1..]) && GlobalTensors(ps)[1..] == GlobalTensors(ps[1..]);
    }
  }

  lemma BankOfUses(packed: TensorSpec, ps: seq<Part>, before: seq<TensorSpec>, t: SourceTensor)
    requires ps != []
    ensures TensorUses(before + BankOf(packed, ps), t) ==
            TensorUses(before, t) + multiset(packed.sources)[t] + multiset(ScaleTensors(ps))[t] +
              multiset(GlobalTensors(ps))[t]
  {
    hide TensorUses;
    var b := BankOf(packed, ps);
    assert before + b == before + [b[0]] + [b[1]] + [b[2]];
    TensorUsesSnoc(before + [b[0]] + [b[1]], b[2], t);
    TensorUsesSnoc(before + [b[0]], b[1], t);
    TensorUsesSnoc(before, b[0], t);
  }

  /** Banks use t as often as their stacks use the expert that t belongs to. */
  lemma {:induction false} BanksUses(stacks: seq<TensorSpec>, fused: map<string, BlobSpec>,
          metadata: map<string, string>, t: SourceTensor, c: Option<SourceTensor>)
    requires AllBanks(stacks, fused, metadata)
    requires forall s, w | s in stacks && w in s.sources && PartOf(w, fused).Some? ::
               Balanced(w, PartOf(w, fused).value, t, c)
    ensures TensorUses(BankTensors(stacks, fused, metadata), t) == if c.Some? then TensorUses(stacks, c.value) else 0
    decreases |stacks|
  {
    hide TensorUses, PartOf, OneBank, BankOf, Balanced;
    if stacks == [] {
      TensorUsesSnoc([], PlainBlob("", t, "").tensors[0], t);
      if c.Some? { TensorUsesSnoc([], PlainBlob("", t, "").tensors[0], c.value); }
    } else {
      var front, last := stacks[..|stacks| - 1], stacks[|stacks| - 1];
      assert stacks == front + [last] && last in stacks;
      var ps := Parts(last.sources, fused);
      BanksUses(front, fused, metadata, t, c);
      BankOfUses(last, ps, BankTensors(front, fused, metadata), t);
      forall k | 0 <= k < |ps| ensures Balanced(last.sources[k], ps[k], t, c) {
        assert last.sources[k] in last.sources && PartOf(last.sources[k], fused).Some?;
      }
      CountTriples(last.sources, ps, t, c);
      if c.Some? { TensorUsesSnoc(front, last, c.value); }
    }
  }

  // ---- Groups of packed experts -------------------------------------------

  /** A matched name ending in .weight is its base with that suffix. */
  lemma BaseOfWeight(inv: Inventory, config: Config, x: string)
    requires x in inv && HasSuffix(x, WEIGHT) && MatchPrequant(inv, config, x).Some?
    ensures x == MatchPrequant(inv, config, x).value.base + WEIGHT
  {
    hide MatchPrequant, HasSuffix, CutSuffix, DotTail;
    MatchIs(inv, config, x);
    var f := MatchPrequant(inv, config, x).value;
    PatternSuffixes(f.pattern);
    SuffixOf(x, WEIGHT);
    SuffixesSplit();
    SplitsOnce(f.base, f.pattern.weightSuffix, CutSuffix(x, WEIGHT).value, WEIGHT);
  }

  /** A name is stored with at most one weight that ends in .weight. */
  lemma OneWeightUser(inv: Inventory, config: Config, v: string, w: string, s: string)
    requires HasSuffix(v, WEIGHT) && HasSuffix(w, WEIGHT) && UsedBy(inv, config, v, s) && UsedBy(inv, config, w, s)
    ensures v == w
  {
    hide MatchPrequant, HasSuffix;
    CompanionsShareBase(inv, config, v, w, s);
    BaseOfWeight(inv, config, v);
    BaseOfWeight(inv, config, w);
  }

  /** A packed expert's scale and global scale are the two companions it is fused with. */
  lemma PartUsed(inv: Inventory, config: Config, fused: map<string, BlobSpec>, w: SourceTensor)
    requires FusedFrom(inv, config, fused) && w.name in inv && PartOf(w, fused).Some?
    ensures MatchPrequant(inv, config, w.name).Some?
    ensures var f, p := MatchPrequant(inv, config, w.name).value, PartOf(w, fused).value;
            |f.used| == 2 && f.used[0] in inv && f.used[1] in inv && p.scale == inv[f.used[0]] &&
              p.global == inv[f.used[1]]
  {
    hide MatchPrequant, WordShape, Companions;
    MatchIs(inv, config, w.name);
    var f := MatchPrequant(inv, config, w.name).value;
    assert fused[w.name].tensors == f.spec.tensors;
    assert f.spec.tensors[1].sources == [inv[f.used[0]]];
    assert |f.used| == 2 ==> f.spec.tensors[2].sources == [inv[f.used[1]]];
  }

  /** In a bank, the scale and global scale at slot i are those fused with expert i. */
  lemma BankInSlots(packed: TensorSpec, inv: Inventory, config: Config, fused: map<string, BlobSpec>)
    requires WellKeyed(inv) && FusedFrom(inv, config, fused) && packed.sources != [] && AllParts(packed.sources, fused)
    requires forall w | w in packed.sources :: w.name in inv
    ensures var bank := BankOf(packed, Parts(packed.sources, fused));
            bank[0].sources == packed.sources && |bank[1].sources| == |bank[2].sources| == |packed.sources| &&
            forall i | 0 <= i < |packed.sources| ::
              UsedBy(inv, config, packed.sources[i].name, bank[1].sources[i].name) &&
              UsedBy(inv, config, packed.sources[i].name, bank[2].sources[i].name)
  {
    hide MatchPrequant, PartOf, FusedFrom;
    forall i | 0 <= i < |packed.sources| ensures
        UsedBy(inv, config, packed.sources[i].name, PartOf(packed.sources[i], fused).value.scale.name) &&
        UsedBy(inv, config, packed.sources[i].name, PartOf(packed.sources[i], fused).value.global.name) {
      assert packed.sources[i] in packed.sources;
      PartUsed(inv, config, fused, packed.sources[i]);
    }
  }

  lemma TripleOf(inv: Inventory, config: Config, fused: map<string, BlobSpec>, w: SourceTensor, t: SourceTensor)
    requires WellKeyed(inv) && FusedFrom(inv, config, fused) && Own(inv, w) && PartOf(w, fused).Some?
    ensures Triple(w, PartOf(w, fused).value, t) == if UsesIt(inv, config, w.name, t) then 1 else 0
  {
    hide MatchPrequant, PartOf, FusedFrom;
    PartUsed(inv, config, fused, w);
    MatchIs(inv, config, w.name);
    var f := MatchPrequant(inv, config, w.name).value;
    forall s | s in f.used ensures s != w.name { CompanionIsNoWeight(inv, config, w.name, s); }
    assert f.used[0] in f.used && f.used[1] in f.used && f.used[0] != f.used[1];
    assert f.used == [f.used[0], f.used[1]];
  }

  lemma {:induction false} SourceIsUsed(ts: seq<TensorSpec>, s: TensorSpec, w: SourceTensor)
    requires s in ts && w in s.sources
    ensures TensorUses(ts, w) > 0
    decreases |ts|
  {
    hide TensorUses;
    var front, last := ts[..|ts| - 1], ts[|ts| - 1];
    assert ts == front + [last];
    TensorUsesSnoc(front, last, w);
    if s != last { SourceIsUsed(front, s, w); }
  }

  /** One of these tensors is t or is fused with t. */
  ghost predicate SomeUses(inv: Inventory, config: Config, ts: seq<SourceTensor>, t: SourceTensor) {
    exists w :: w in ts && UsesIt(inv, config, w.name, t)
  }

  /** The expert of a group that t belongs to. */
  lemma OnlyUser(inv: Inventory, config: Config, ts: seq<SourceTensor>, t: SourceTensor)
    returns (c: Option<SourceTensor>)
    requires WellKeyed(inv) && forall w | w in ts :: Own(inv, w) && HasSuffix(w.name, WEIGHT)
    ensures c.Some? <==> SomeUses(inv, config, ts, t)
    ensures forall w | w in ts :: UsesIt(inv, config, w.name, t) <==> c == Some(w)
    ensures c.Some? ==> c.value in ts
  {
    hide UsedBy, HasSuffix;
    if SomeUses(inv, config, ts, t) {
      var w :| w in ts && UsesIt(inv, config, w.name, t);
      c := Some(w);
      forall v | v in ts && UsesIt(inv, config, v.name, t) ensures v == w { SameUser(inv, config, v.name, w.name, t); }
    } else {
      c := None;
    }
  }

  /** Of the names ending in .weight, one at most is a tensor's own or fused with it. */
  lemma SameUser(inv: Inventory, config: Config, v: string, w: string, t: SourceTensor)
    requires HasSuffix(v, WEIGHT) && HasSuffix(w, WEIGHT) && UsesIt(inv, config, v, t) && UsesIt(inv, config, w, t)
    ensures v == w
  {
    hide UsedBy, HasSuffix;
    if UsedBy(inv, config, v, t.name) { CompanionIsNoWeight(inv, config, v, t.name); }
    if UsedBy(inv, config, w, t.name) { CompanionIsNoWeight(inv, config, w, t.name); }
    if UsedBy(inv, config, v, t.name) && UsedBy(inv, config, w, t.name) { OneWeightUser(inv, config, v, w, t.name); }
  }

  lemma BankPlanUses(gp: string, ts: seq<SourceTensor>, inv: Inventory, config: Config, fused: map<string, BlobSpec>,
          policy: Policy, t: SourceTensor)
    requires WellKeyed(inv) && FusedFrom(inv, config, fused) && ts != [] && BankPlan(gp, ts, fused, policy).Some?
    requires forall w | w in ts :: Own(inv, w) && HasSuffix(w.name, WEIGHT)
    ensures Uses(BankPlan(gp, ts, fused, policy).value, t) == if SomeUses(inv, config, ts, t) then 1 else 0
  {
    hide Uses, TensorUses, ExpertGroupPlan, BankTensors, BankMetadata, AllBanks, FusedFrom, PartOf, HasSuffix,
         UsesIt, SomeUses, Own;
    UnquantizedGroup(gp, ts, policy);
    var plan := ExpertGroupPlan(gp, ts, "", policy).value;
    var stacks, metadata := plan[0].tensors, BankMetadata(plan[0].tensors, fused);
    assert plan == [BlobSpec(gp, stacks, plan[0].metadata)];
    var c := OnlyUser(inv, config, ts, t);
    forall s, w | s in stacks && w in s.sources && PartOf(w, fused).Some?
      ensures Balanced(w, PartOf(w, fused).value, t, c)
    {
      SourceIsUsed(stacks, s, w);
      OneBlobUses(gp, stacks, plan[0].metadata, w);
      ExpertGroupUses(gp, ts, "", policy, w);
      TripleOf(inv, config, fused, w, t);
    }
    BanksUses(stacks, fused, metadata, t, c);
    OneBlobUses(gp, BankTensors(stacks, fused, metadata), metadata, t);
    assert BankPlan(gp, ts, fused, policy).value == [BlobSpec(gp, BankTensors(stacks, fused, metadata), metadata)];
    if c.Some? {
      OneBlobUses(gp, stacks, plan[0].metadata, c.value);
      ExpertGroupUses(gp, ts, "", policy, c.value);
    }
  }

  /** A group uses once each tensor that is one of its experts or fused with one. */
  lemma PackedOrPlainUses(gp: string, ts: seq<SourceTensor>, inv: Inventory, config: Config,
          fused: map<string, BlobSpec>, policy: Policy, t: SourceTensor)
    requires WellKeyed(inv) && FusedFrom(inv, config, fused) && ts != [] && PackedOrPlain(gp, ts, fused, policy).Some?
    requires forall w | w in ts :: Own(inv, w) && HasSuffix(w.name, WEIGHT)
    ensures Uses(PackedOrPlain(gp, ts, fused, policy).value, t) == if SomeUses(inv, config, ts, t) then 1 else 0
  {
    hide Uses, ExpertGroupPlan, BankPlan, HasSuffix, MatchPrequant;
    if NoneFused(ts, fused) {
      ExpertGroupUses(gp, ts, "", policy, t);
      forall w | w in ts ensures UsesIt(inv, config, w.name, t) <==> w == t {
        assert w.name !in fused;
      }
    } else {
      BankPlanUses(gp, ts, inv, config, fused, policy, t);
    }
  }
}
