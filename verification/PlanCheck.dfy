/** checkOutputCollisions of create/plan.go. */
module PlanCheck {
  import opened Results
  import opened PlanNames
  import opened PlanTypes

  function BlobNames(specs: seq<BlobSpec>): (names: seq<string>)
    ensures |names| == |specs| && forall k | 0 <= k < |specs| :: names[k] == specs[k].name
  {
    seq(|specs|, k requires 0 <= k < |specs| => specs[k].name)
  }

  /** The names of all output tensors, blob after blob. */
  function TensorNames(specs: seq<BlobSpec>): seq<string> {
    if specs == [] then [] else TensorNames(specs[..|specs| - 1]) + NamesIn(specs[|specs| - 1].tensors)
  }

  function NamesIn(ts: seq<TensorSpec>): (names: seq<string>)
    ensures |names| == |ts| && forall k | 0 <= k < |ts| :: names[k] == ts[k].name
  {
    seq(|ts|, k requires 0 <= k < |ts| => ts[k].name)
  }

  /** No two blobs and no two output tensors of the plan share a name. */
  ghost predicate NoCollisions(specs: seq<BlobSpec>) {
    DistinctNames(BlobNames(specs)) && DistinctNames(TensorNames(specs))
  }

  /** The names seen so far, all different. */
  ghost predicate Seen(names: seq<string>, seen: set<string>) {
    DistinctNames(names) && forall x :: x in names <==> x in seen
  }

  lemma SeenNext(names: seq<string>, seen: set<string>, x: string)
    requires Seen(names, seen)
    ensures DistinctNames(names + [x]) <==> x !in seen
    ensures x !in seen ==> Seen(names + [x], seen + {x})
  {
    if x in seen {
      var k :| 0 <= k < |names| && names[k] == x;
      assert (names + [x])[k] == (names + [x])[|names|];
    }
  }

  lemma Clashes(a: seq<string>, b: seq<string>)
    requires !DistinctNames(a)
    ensures !DistinctNames(a + b)
  {
    var i, j :| 0 <= i < j < |a| && a[i] == a[j];
    assert (a + b)[i] == (a + b)[j];
  }

  lemma {:induction false} PrefixCollides(specs: seq<BlobSpec>, k: nat)
    requires k <= |specs| && !NoCollisions(specs[..k])
    ensures !NoCollisions(specs)
    decreases |specs| - k
  {
    if k == |specs| {
      assert specs[..k] == specs;
    } else {
      assert specs[..k + 1][..k] == specs[..k];
      assert BlobNames(specs[..k + 1]) == BlobNames(specs[..k]) + [specs[k].name];
      if !DistinctNames(BlobNames(specs[..k])) {
        Clashes(BlobNames(specs[..k]), [specs[k].name]);
      } else {
        Clashes(TensorNames(specs[..k]), NamesIn(specs[k].tensors));
      }
      PrefixCollides(specs, k + 1);
    }
  }

  /** Adds one blob's tensor names to those of the blobs before it. */
  method CheckTensors(ts: seq<TensorSpec>, tensors: set<string>, ghost before: seq<string>)
    returns (r: Result<set<string>, PlanError>)
    requires Seen(before, tensors)
    ensures r.Success? <==> DistinctNames(before + NamesIn(ts))
    ensures r.Success? ==> Seen(before + NamesIn(ts), r.value)
  {
    hide Seen;
    var seen := tensors;
    assert before + NamesIn(ts)[..0] == before;
    for i := 0 to |ts|
      invariant Seen(before + NamesIn(ts)[..i], seen)
    {
      var x := ts[i].name;
      SeenNext(before + NamesIn(ts)[..i], seen, x);
      assert before + NamesIn(ts)[..i] + [x] == before + NamesIn(ts)[..i + 1];
      if x in seen {
        Clashes(before + NamesIn(ts)[..i + 1], NamesIn(ts)[i + 1..]);
        assert before + NamesIn(ts)[..i + 1] + NamesIn(ts)[i + 1..] == before + NamesIn(ts);
        return Failure(ClashingTensor);
      }
      seen := seen + {x};
    }
    assert NamesIn(ts)[..|ts|] == NamesIn(ts);
    SeenDistinct(before + NamesIn(ts), seen);
    r := Success(seen);
  }

  lemma SeenDistinct(names: seq<string>, seen: set<string>)
    requires Seen(names, seen)
    ensures DistinctNames(names)
  {}

  /** Rejects exactly the plans in which two blobs or two output tensors share a name. */
  method CheckOutputCollisions(specs: seq<BlobSpec>) returns (r: Option<PlanError>)
    ensures r.None? <==> NoCollisions(specs)
  {
    hide Seen, NamesIn, DistinctNames;
    var blobs: set<string> := {};
    var tensors: set<string> := {};
    NothingSeen();
    for k := 0 to |specs|
      invariant Seen(BlobNames(specs[..k]), blobs) && Seen(TensorNames(specs[..k]), tensors)
    {
      assert specs[..k + 1][..k] == specs[..k];
      var name := specs[k].name;
      SeenNext(BlobNames(specs[..k]), blobs, name);
      assert BlobNames(specs[..k + 1]) == BlobNames(specs[..k]) + [name];
      if name in blobs { PrefixCollides(specs, k + 1); return Some(ClashingBlob); }
      blobs := blobs + {name};
      var checked := CheckTensors(specs[k].tensors, tensors, TensorNames(specs[..k]));
      if checked.Failure? { PrefixCollides(specs, k + 1); return Some(checked.error); }
      tensors := checked.value;
    }
    assert specs[..|specs|] == specs;
    SeenDistinct(BlobNames(specs), blobs);
    SeenDistinct(TensorNames(specs), tensors);
    r := None;
  }

  lemma NothingSeen()
    ensures Seen([], {})
  {}
}
