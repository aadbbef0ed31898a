/** planExpertGroup, validateExpertProjections and homogeneousExpertBlobs of
    create/plan.go: stacking a layer's experts. */
module PlanExperts {
  import opened Results
  import opened PlanNames
  import opened PlanTypes

  // ---- Experts by projection and index ------------------------------------

  type ByIndex<T> = map<nat, T>

  /** Files each item under the projection and index its name parses to; nothing when
      a name does not parse or two parse alike. */
  function ByProjection<T>(gp: string, names: seq<string>, items: seq<T>): Option<map<string, ByIndex<T>>>
    requires |names| == |items|
    decreases |names|
  {
    if names == [] then Some(map[])
    else
      var n := |names| - 1;
      match ByProjection(gp, names[..n], items[..n])
      case None => None
      case Some(m) =>
        match ParseExpertTensor(gp, names[n])
        case None => None
        case Some(at) => if Holds(m, at.1, at.0) then None else Some(Put(m, at.1, at.0, items[n]))
  }

  predicate Holds<T>(m: map<string, ByIndex<T>>, proj: string, i: nat) {
    proj in m && i in m[proj]
  }

  function Put<T>(m: map<string, ByIndex<T>>, proj: string, i: nat, item: T): map<string, ByIndex<T>> {
    m[proj := (if proj in m then m[proj] else map[])[i := item]]
  }

  /** Item k is at the projection and index of its name. */
  ghost predicate PlacedAt<T>(gp: string, names: seq<string>, items: seq<T>, m: map<string, ByIndex<T>>, k: nat)
    requires k < |names| == |items|
  {
    var at := ParseExpertTensor(gp, names[k]);
    at.Some? && Holds(m, at.value.1, at.value.0) && m[at.value.1][at.value.0] == items[k]
  }

  /** One of the items is expert i of this projection. */
  ghost predicate Comes<T>(gp: string, names: seq<string>, items: seq<T>, proj: string, i: nat, item: T)
    requires |names| == |items|
  {
    exists k :: 0 <= k < |names| && names[k] == ExpertName(gp, i, proj) && items[k] == item
  }

  /** Each item is at the projection and index of its name, and nothing else is there. */
  ghost predicate Filed<T>(gp: string, names: seq<string>, items: seq<T>, m: map<string, ByIndex<T>>)
    requires |names| == |items|
  {
    (forall k | 0 <= k < |names| :: PlacedAt(gp, names, items, m, k)) &&
    (forall p | p in m :: m[p] != map[]) &&
    (forall p, i | Holds(m, p, i) :: Comes(gp, names, items, p, i, m[p][i]))
  }

  ghost predicate AllParse(gp: string, names: seq<string>) {
    forall k | 0 <= k < |names| :: ParseExpertTensor(gp, names[k]).Some?
  }

  lemma AllParseNext(gp: string, names: seq<string>)
    requires names != []
    ensures AllParse(gp, names) <==>
            AllParse(gp, names[..|names| - 1]) && ParseExpertTensor(gp, names[|names| - 1]).Some?
    ensures DistinctNames(names) ==> DistinctNames(names[..|names| - 1])
  {
    hide ParseExpertTensor;
    forall k | 0 <= k < |names| - 1 ensures names[..|names| - 1][k] == names[k] {}
  }

  /** Filing succeeds exactly if every name parses and no name repeats. */
  lemma {:induction false} ByProjectionFiles<T>(gp: string, names: seq<string>, items: seq<T>)
    requires |names| == |items|
    ensures ByProjection(gp, names, items).Some? ==> Filed(gp, names, items, ByProjection(gp, names, items).value)
    ensures ByProjection(gp, names, items).Some? <==> DistinctNames(names) && AllParse(gp, names)
    decreases |names|
  {
    if names != [] {
      hide ParseExpertTensor, ExpertName, Filed, DistinctNames, AllParse, Put;
      var n := |names| - 1;
      var before := ByProjection(gp, names[..n], items[..n]);
      ByProjectionFiles(gp, names[..n], items[..n]);
      AllParseNext(gp, names);
      if before.Some? && ParseExpertTensor(gp, names[n]).Some? {
        FiledNext(gp, names, items, before.value);
      }
    }
  }

  lemma PutHolds<T>(m: map<string, ByIndex<T>>, p: string, i: nat, item: T)
    requires !Holds(m, p, i)
    ensures Holds(Put(m, p, i, item), p, i) && Put(m, p, i, item)[p][i] == item
    ensures forall q, j :: Holds(Put(m, p, i, item), q, j) <==> Holds(m, q, j) || (q == p && j == i)
    ensures forall q, j | Holds(m, q, j) :: Put(m, p, i, item)[q][j] == m[q][j]
  {}

  lemma ComesLater<T>(gp: string, names: seq<string>, items: seq<T>, p: string, i: nat, item: T)
    requires |names| == |items| > 0
    ensures Comes(gp, names[..|names| - 1], items[..|names| - 1], p, i, item) ==> Comes(gp, names, items, p, i, item)
    ensures Comes(gp, names[..|names| - 1], items[..|names| - 1], p, i, item) &&
              names[|names| - 1] == ExpertName(gp, i, p)
            ==> !DistinctNames(names)
  {
    hide ExpertName;
    var n := |names| - 1;
    if Comes(gp, names[..n], items[..n], p, i, item) {
      var k :| 0 <= k < n && names[..n][k] == ExpertName(gp, i, p) && items[..n][k] == item;
      assert names[k] == ExpertName(gp, i, p) && items[k] == item;
    }
  }

  lemma FiledNext<T>(gp: string, names: seq<string>, items: seq<T>, m: map<string, ByIndex<T>>)
    requires |names| == |items| > 0
    requires Filed(gp, names[..|names| - 1], items[..|names| - 1], m) && DistinctNames(names[..|names| - 1])
    requires ParseExpertTensor(gp, names[|names| - 1]).Some?
    ensures var at := ParseExpertTensor(gp, names[|names| - 1]).value;
            (Holds(m, at.1, at.0) <==> !DistinctNames(names)) &&
            (!Holds(m, at.1, at.0) ==> Filed(gp, names, items, Put(m, at.1, at.0, items[|names| - 1])))
  {
    hide ParseExpertTensor, ExpertName, Comes, Put;
    var n := |names| - 1;
    var at := ParseExpertTensor(gp, names[n]).value;
    var i, p := at.0, at.1;
    ParseIsName(gp, names[n], i, p);
    if Holds(m, p, i) {
      assert Comes(gp, names[..n], items[..n], p, i, m[p][i]);
      ComesLater(gp, names, items, p, i, m[p][i]);
    } else {
      PutHolds(m, p, i, items[n]);
      forall k | 0 <= k < n ensures names[k] != names[n] && PlacedAt(gp, names, items, Put(m, p, i, items[n]), k) {
        assert names[..n][k] == names[k] && items[..n][k] == items[k];
        assert PlacedAt(gp, names[..n], items[..n], m, k);
      }
      FiledBack(gp, names, items, m, i, p);
    }
  }

  lemma FiledBack<T>(gp: string, names: seq<string>, items: seq<T>, m: map<string, ByIndex<T>>, i: nat, p: string)
    requires |names| == |items| > 0 && !Holds(m, p, i) && names[|names| - 1] == ExpertName(gp, i, p)
    requires Filed(gp, names[..|names| - 1], items[..|names| - 1], m)
    ensures var m' := Put(m, p, i, items[|names| - 1]);
            (forall q | q in m' :: m'[q] != map[]) && forall q, j | Holds(m', q, j) ::
              Comes(gp, names, items, q, j, m'[q][j])
  {
    hide ParseExpertTensor, ExpertName;
    var n := |names| - 1;
    var m' := Put(m, p, i, items[n]);
    PutHolds(m, p, i, items[n]);
    assert Comes(gp, names, items, p, i, items[n]) by { assert names[n] == ExpertName(gp, i, p); }
    forall q | q in m' ensures m'[q] != map[] {
      if q == p { assert i in m'[q]; }
    }
    hide Put, Holds, Comes;
    forall q, j | Holds(m', q, j) ensures Comes(gp, names, items, q, j, m'[q][j]) {
      if q != p || j != i {
        assert Comes(gp, names[..n], items[..n], q, j, m[q][j]);
        ComesLater(gp, names, items, q, j, m[q][j]);
      }
    }
  }

  // ---- Contiguous indices -------------------------------------------------

  ghost predicate Contiguous<T>(experts: ByIndex<T>) {
    forall i: nat :: i in experts <==> i < |experts|
  }

  /** Every projection covers the same experts 0, 1, ..., N - 1. */
  ghost predicate SameExperts<T>(m: map<string, ByIndex<T>>) {
    (forall p | p in m :: Contiguous(m[p])) && forall p, q | p in m && q in m :: |m[p]| == |m[q]|
  }

  function Below(n: nat): (r: set<nat>)
    ensures |r| == n && forall i: nat :: i in r <==> i < n
  {
    if n == 0 then {} else Below(n - 1) + {n - 1}
  }

  /** A map that has all indices below its size has no others. */
  lemma FullIsContiguous<T>(experts: ByIndex<T>)
    requires forall i: nat | i < |experts| :: i in experts
    ensures Contiguous(experts)
  {
    var n := |experts|;
    var range := Below(n);
    assert |experts.Keys| == n;
    if exists i :: i in experts && i >= n {
      var i :| i in experts && i >= n;
      assert range + {i} <= experts.Keys;
      assert |range + {i}| == n + 1;
      Subset(range + {i}, experts.Keys);
    }
  }

  lemma Subset<T>(a: set<T>, b: set<T>)
    requires a <= b
    ensures |a| <= |b|
  {
    assert b == a + (b - a);
  }

  method CoversIndices<T>(experts: ByIndex<T>) returns (full: bool)
    ensures full <==> Contiguous(experts)
  {
    for index := 0 to |experts|
      invariant forall i: nat | i < index :: i in experts
    {
      if index !in experts { return false; }
    }
    FullIsContiguous(experts);
    full := true;
  }

  method ValidateExpertProjections<T>(m: map<string, ByIndex<T>>) returns (r: Result<nat, PlanError>)
    ensures r.Success? <==> SameExperts(m)
    ensures r.Success? ==> (forall p | p in m :: |m[p]| == r.value) && (m == map[] ==> r.value == 0)
  {
    hide Contiguous;
    var projections := SortedKeys(m.Keys);
    SortedNamesAre(m.Keys);
    hide SortedNames;
    var expected := -1;
    for k := 0 to |projections|
      invariant k == 0 <==> expected < 0
      invariant forall j | 0 <= j < k :: Contiguous(m[projections[j]]) && |m[projections[j]]| == expected
    {
      assert projections[k] in m;
      var experts := m[projections[k]];
      var full := CoversIndices(experts);
      if !full { return Failure(MissingExpert); }
      if expected >= 0 && |experts| != expected {
        assert projections[0] in m && |m[projections[0]]| == expected;
        return Failure(ExpertCounts);
      }
      expected := |experts|;
    }
    forall p | p in m ensures Contiguous(m[p]) && |m[p]| == expected {
      assert p in projections;
    }
    if expected < 0 { return Success(0); }
    assert projections[0] in m;
    r := Success(expected);
  }

  // ---- Blobs of a group ---------------------------------------------------

  function Separate(ts: seq<TensorSpec>): (blobs: seq<BlobSpec>)
    ensures |blobs| == |ts| && forall i | 0 <= i < |ts| :: blobs[i] == BlobSpec(ts[i].name, [ts[i]], map[])
  {
    if ts == [] then [] else Separate(ts[..|ts| - 1]) + [BlobSpec(ts[|ts| - 1].name, [ts[|ts| - 1]], map[])]
  }

  predicate OneQuantization(ts: seq<TensorSpec>) {
    forall t | t in ts :: t.quantize == ts[0].quantize
  }

  /** One blob for tensors of one quantization, otherwise a blob for each. */
  function Homogeneous(gp: string, ts: seq<TensorSpec>): seq<BlobSpec> {
    if ts == [] then []
    else if OneQuantization(ts) then [BlobSpec(gp, ts, map[])]
    else Separate(ts)
  }

  method HomogeneousExpertBlobs(gp: string, ts: seq<TensorSpec>) returns (blobs: seq<BlobSpec>)
    ensures blobs == Homogeneous(gp, ts)
  {
    if |ts| == 0 { return []; }
    var quantize := ts[0].quantize;
    for k := 1 to |ts|
      invariant forall j | 0 <= j < k :: ts[j].quantize == quantize
    {
      if ts[k].quantize != quantize {
        blobs := [];
        for i := 0 to |ts|
          invariant blobs == Separate(ts)[..i]
        {
          blobs := blobs + [BlobSpec(ts[i].name, [ts[i]], map[])];
        }
        return;
      }
    }
    return [BlobSpec(gp, ts, map[])];
  }

  lemma {:induction false} SeparateUses(ts: seq<TensorSpec>, t: SourceTensor)
    ensures Uses(Separate(ts), t) == TensorUses(ts, t)
    decreases |ts|
  {
    hide Uses, TensorUses;
    if ts == [] {
      UsesSnoc([], PlainBlob("", t, ""), t);
      TensorUsesSnoc([], PlainBlob("", t, "").tensors[0], t);
    } else {
      var front, last := ts[..|ts| - 1], ts[|ts| - 1];
      SeparateUses(front, t);
      var b := BlobSpec(last.name, [last], map[]);
      UsesSnoc(Separate(front), b, t);
      TensorUsesSnoc(front, last, t);
      TensorUsesSnoc([], last, t);
      assert ts == front + [last] && [] + [last] == [last];
    }
  }

  lemma HomogeneousUses(gp: string, ts: seq<TensorSpec>, t: SourceTensor)
    ensures Uses(Homogeneous(gp, ts), t) == TensorUses(ts, t)
  {
    hide Uses, TensorUses;
    SeparateUses(ts, t);
    OneBlobUses(gp, ts, map[], t);
  }

  // ---- Stacks -------------------------------------------------------------

  function Names(ts: seq<SourceTensor>): (names: seq<string>)
    ensures |names| == |ts| && forall k | 0 <= k < |ts| :: names[k] == ts[k].name
  {
    seq(|ts|, k requires 0 <= k < |ts| => ts[k].name)
  }

  /** All have the dtype and shape of the first. */
  predicate SameLayout(experts: seq<SourceTensor>) {
    forall e | e in experts :: e.dtype == experts[0].dtype && e.shape == experts[0].shape
  }

  /** The items in index order. */
  ghost function InOrder<T>(experts: ByIndex<T>): (s: seq<T>)
    requires Contiguous(experts)
    ensures |s| == |experts| && forall i | 0 <= i < |s| :: i in experts && s[i] == experts[i]
  {
    seq(|experts|, i requires 0 <= i < |experts| => experts[i])
  }

  function StackedName(gp: string, proj: string): string { gp + "." + proj + WEIGHT }

  function QuantizationOf(policy: Policy, name: string, shape: seq<nat>, quantize: string): string {
    if quantize == "" then "" else policy(name, shape, quantize)
  }

  /** The stack of one projection: expert i at slot i. */
  function Stack(gp: string, proj: string, experts: seq<SourceTensor>, quantize: string, policy: Policy): TensorSpec
    requires experts != []
  {
    var name, shape := StackedName(gp, proj), [|experts|] + experts[0].shape;
    TensorSpec(name, experts, StackExperts, QuantizationOf(policy, name, shape, quantize), experts[0].dtype,
      Some(shape))
  }

  /** Nonempty, contiguous experts, as many for each projection. */
  ghost predicate Stackable<T>(m: map<string, ByIndex<T>>) {
    SameExperts(m) && forall p | p in m :: m[p] != map[]
  }

  ghost function Stacks(gp: string, projs: seq<string>, m: map<string, ByIndex<SourceTensor>>, quantize: string,
          policy: Policy): (specs: seq<TensorSpec>)
    requires Stackable(m) && forall p | p in projs :: p in m
    ensures |specs| == |projs|
    ensures forall k | 0 <= k < |projs| :: specs[k] == Stack(gp, projs[k], InOrder(m[projs[k]]), quantize, policy)
  {
    seq(|projs|, k requires 0 <= k < |projs| =>
      assert projs[k] in projs; Stack(gp, projs[k], InOrder(m[projs[k]]), quantize, policy))
  }

  /** The blobs of an expert group; nothing when its tensors do not stack. */
  ghost function ExpertGroupPlan(gp: string, ts: seq<SourceTensor>, quantize: string,
          policy: Policy): Option<seq<BlobSpec>> {
    match ByProjection(gp, Names(ts), ts)
    case None => None
    case Some(m) =>
      ByProjectionFiles(gp, Names(ts), ts);
      if SameExperts(m) && forall p | p in m :: SameLayout(InOrder(m[p]))
      then
        SortedNamesAre(m.Keys);
        Some(Homogeneous(gp, Stacks(gp, SortedNames(m.Keys), m, quantize, policy)))
      else None
  }

  /** Files each expert weight under its projection and index. */
  method GroupByProjection(gp: string, ts: seq<SourceTensor>)
    returns (r: Result<map<string, ByIndex<SourceTensor>>, PlanError>)
    ensures r.Success? <==> ByProjection(gp, Names(ts), ts).Some?
    ensures r.Success? ==> r.value == ByProjection(gp, Names(ts), ts).value
  {
    hide ParseExpertTensor;
    var m: map<string, ByIndex<SourceTensor>> := map[];
    for k := 0 to |ts|
      invariant ByProjection(gp, Names(ts)[..k], ts[..k]) == Some(m)
    {
      assert Names(ts)[..k + 1][..k] == Names(ts)[..k] && ts[..k + 1][..k] == ts[..k];
      var at := ParseExpertTensor(gp, ts[k].name);
      if at.None? { SomeFails(gp, Names(ts), ts, k + 1); return Failure(NotAnExpert); }
      var (idx, proj) := at.value;
      if proj in m && idx in m[proj] { SomeFails(gp, Names(ts), ts, k + 1); return Failure(DuplicateExpert); }
      m := m[proj := (if proj in m then m[proj] else map[])[idx := ts[k]]];
    }
    assert Names(ts)[..|ts|] == Names(ts) && ts[..|ts|] == ts;
    r := Success(m);
  }

  /** A prefix that cannot be filed keeps all of it from being filed. */
  lemma SomeFails<T>(gp: string, names: seq<string>, items: seq<T>, k: nat)
    requires |names| == |items| && k <= |names| && ByProjection(gp, names[..k], items[..k]).None?
    ensures ByProjection(gp, names, items).None?
  {
    hide ByProjection, ParseExpertTensor;
    ByProjectionFiles(gp, names, items);
    ByProjectionFiles(gp, names[..k], items[..k]);
    if DistinctNames(names) { assert DistinctNames(names[..k]); }
  }

  /** The experts of one projection in index order, all of one layout. */
  method StackProjection(gp: string, proj: string, experts: ByIndex<SourceTensor>, count: nat, quantize: string,
          policy: Policy)
    returns (r: Result<TensorSpec, PlanError>)
    requires Contiguous(experts) && |experts| == count > 0
    ensures r.Success? <==> SameLayout(InOrder(experts))
    ensures r.Success? ==> r.value == Stack(gp, proj, InOrder(experts), quantize, policy)
  {
    var base := experts[0];
    var sources: seq<SourceTensor> := [];
    for i := 0 to count
      invariant sources == InOrder(experts)[..i]
      invariant forall e | e in sources :: e.dtype == base.dtype && e.shape == base.shape
    {
      var e := experts[i];
      if e.dtype != base.dtype || e.shape != base.shape {
        assert InOrder(experts)[i] == e;
        return Failure(ExpertLayout);
      }
      sources := sources + [e];
    }
    assert sources == InOrder(experts);
    var stackedName := gp + "." + proj + ".weight";
    var stackedShape := [count] + base.shape;
    var q := "";
    if quantize != "" { q := policy(stackedName, stackedShape, quantize); }
    r := Success(TensorSpec(stackedName, sources, StackExperts, q, base.dtype, Some(stackedShape)));
  }

  method StackAll(gp: string, projs: seq<string>, m: map<string, ByIndex<SourceTensor>>, count: nat, quantize: string,
          policy: Policy)
    returns (r: Result<seq<TensorSpec>, PlanError>)
    requires Stackable(m) && (forall p | p in projs :: p in m) && forall p | p in m :: |m[p]| == count
    ensures r.Success? <==> forall p | p in projs :: SameLayout(InOrder(m[p]))
    ensures r.Success? ==> r.value == Stacks(gp, projs, m, quantize, policy)
  {
    hide Stack, Stacks, InOrder, SameLayout, Contiguous;
    var specs: seq<TensorSpec> := [];
    for k := 0 to |projs|
      invariant |specs| == k
      invariant forall j | 0 <= j < k :: specs[j] == Stack(gp, projs[j], InOrder(m[projs[j]]), quantize, policy)
      invariant forall j | 0 <= j < k :: SameLayout(InOrder(m[projs[j]]))
    {
      assert projs[k] in projs;
      var stacked := StackProjection(gp, projs[k], m[projs[k]], count, quantize, policy);
      if stacked.Failure? { return Failure(stacked.error); }
      specs := specs + [stacked.value];
    }
    r := Success(specs);
  }

  method PlanExpertGroup(gp: string, ts: seq<SourceTensor>, quantize: string, policy: Policy)
    returns (r: Result<seq<BlobSpec>, PlanError>)
    ensures r.Success? <==> ExpertGroupPlan(gp, ts, quantize, policy).Some?
    ensures r.Success? ==> r.value == ExpertGroupPlan(gp, ts, quantize, policy).value
  {
    hide ByProjection, SameExperts, SameLayout, InOrder, Stack, Stacks, Homogeneous, SortedNames;
    var grouped := GroupByProjection(gp, ts);
    if grouped.Failure? { return Failure(grouped.error); }
    var m := grouped.value;
    ByProjectionFiles(gp, Names(ts), ts);
    var counted := ValidateExpertProjections(m);
    if counted.Failure? { return Failure(counted.error); }
    var projs := SortedKeys(m.Keys);
    SortedNamesAre(m.Keys);
    var stacked := StackAll(gp, projs, m, counted.value, quantize, policy);
    if stacked.Failure? { return Failure(stacked.error); }
    var blobs := HomogeneousExpertBlobs(gp, stacked.value);
    r := Success(blobs);
  }
}
