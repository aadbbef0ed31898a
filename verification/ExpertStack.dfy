/** Stacking per-expert tensors: stackExpertTensors of create/transform.go and
    quantizeInputReader of create/writer.go, with what the decoder makes of them. */
module ExpertStack {
  import opened Shapes
  import opened Results
  import opened Fp8Decode

  /** All parts one after the other. */
  function Flatten<T>(parts: seq<seq<T>>): seq<T> {
    if parts == [] then [] else Flatten(parts[..|parts| - 1]) + parts[|parts| - 1]
  }

  lemma {:induction false} FlattenSize<T>(parts: seq<seq<T>>, w: nat)
    requires forall k | 0 <= k < |parts| :: |parts[k]| == w
    ensures |Flatten(parts)| == Times(|parts|, w)
  {
    hide Times;
    TimesOne(w);
    if parts != [] {
      FlattenSize(parts[..|parts| - 1], w);
      Distribute(|parts| - 1, 1, w);
    }
  }

  /** With parts of one size, entry j of part e sits j past e whole parts. */
  lemma {:induction false} FlattenAt<T>(parts: seq<seq<T>>, w: nat, e: nat, j: nat)
    requires forall k | 0 <= k < |parts| :: |parts[k]| == w
    requires e < |parts| && j < w
    ensures Times(e, w) + j < |Flatten(parts)| && Flatten(parts)[Times(e, w) + j] == parts[e][j]
  {
    hide Times;
    var front := parts[..|parts| - 1];
    FlattenSize(front, w);
    if e < |parts| - 1 {
      FlattenAt(front, w, e, j);
    }
  }

  ghost predicate Stackable<T>(parts: seq<Tensor<T>>) {
    parts != [] && forall k | 0 <= k < |parts| :: parts[k].Valid() && parts[k].dims == parts[0].dims
  }

  function DataOf<T>(parts: seq<Tensor<T>>): (d: seq<seq<T>>)
    ensures |d| == |parts| && forall k | 0 <= k < |d| :: d[k] == parts[k].data
  {
    seq(|parts|, k requires 0 <= k < |parts| => parts[k].data)
  }

  /** One tensor with a leading axis that counts the parts. */
  ghost function Stacked<T>(parts: seq<Tensor<T>>): (r: Tensor<T>)
    requires Stackable(parts)
    ensures r.Valid() && r.dims == [|parts|] + parts[0].dims
  {
    FlattenSize(DataOf(parts), Size(parts[0].dims));
    assert ([|parts|] + parts[0].dims)[1..] == parts[0].dims;
    Tensor(Flatten(DataOf(parts)), [|parts|] + parts[0].dims)
  }

  /** Slot e of the stack is part e. */
  lemma StackedAt<T>(parts: seq<Tensor<T>>, e: nat, idx: seq<nat>)
    requires Stackable(parts) && e < |parts| && InBounds(parts[0].dims, idx)
    ensures InBounds(Stacked(parts).dims, [e] + idx)
    ensures Stacked(parts).At([e] + idx) == parts[e].At(idx)
  {
    var dims := parts[0].dims;
    hide Times, Flatten;
    RavelBound(dims, idx);
    FlattenAt(DataOf(parts), Size(dims), e, Ravel(dims, idx));
    assert ([|parts|] + dims)[1..] == dims && ([e] + idx)[1..] == idx;
  }

  // ---- The byte-level stack -----------------------------------------------

  /** A tensor as the import pipeline carries it. */
  datatype TensorData<T> = TensorData(name: string, dtype: string, shape: seq<nat>, data: seq<T>)

  datatype StackError = NoSources | MixedDtype(source: nat) | OddSources

  function Payloads<T>(sources: seq<TensorData<T>>): (d: seq<seq<T>>)
    ensures |d| == |sources| && forall k | 0 <= k < |d| :: d[k] == sources[k].data
  {
    seq(|sources|, k requires 0 <= k < |sources| => sources[k].data)
  }

  predicate OneDtype<T>(ts: seq<TensorData<T>>) {
    forall k | 0 <= k < |ts| :: ts[k].dtype == ts[0].dtype
  }

  method StackExpertTensors<T>(name: string, dtype: string, shape: seq<nat>, sources: seq<TensorData<T>>)
    returns (r: Result<TensorData<T>, StackError>)
    ensures r == Failure(NoSources) <==> sources == []
    ensures r.Success? <==> sources != [] && OneDtype(sources)
    ensures r.Failure? && r.error.MixedDtype? ==>
              r.error.source < |sources| && sources[r.error.source].dtype != sources[0].dtype &&
              forall k | 0 <= k < r.error.source :: sources[k].dtype == sources[0].dtype
    ensures r.Success? ==> r.value == TensorData(name, dtype, shape, Flatten(Payloads(sources)))
  {
    if |sources| == 0 {
      return Failure(NoSources);
    }
    var buf := [];
    for i := 0 to |sources|
      invariant forall k | 0 <= k < i :: sources[k].dtype == sources[0].dtype
      invariant buf == Flatten(Payloads(sources)[..i])
    {
      if sources[i].dtype != sources[0].dtype {
        return Failure(MixedDtype(i));
      }
      assert Payloads(sources)[..i + 1][..i] == Payloads(sources)[..i];
      buf := buf + sources[i].data;
    }
    assert Payloads(sources)[..|sources|] == Payloads(sources);
    return Success(TensorData(name, dtype, shape, buf));
  }

  /** The decode_stack_fp8 input: the first half of the sources stacked as the
      weight, the second half as its scale. */
  method StackedInput<T>(name: string, outDtype: string, outShape: seq<nat>, sources: seq<TensorData<T>>)
    returns (r: Result<(TensorData<T>, TensorData<T>), StackError>)
    ensures r.Success? ==> var n := |sources| / 2;
              n > 0 && |sources| == 2 * n &&
              r.value.0 == TensorData(name, outDtype, outShape, Flatten(Payloads(sources[..n]))) &&
              r.value.1 == TensorData(name + ".scale_inv", sources[n].dtype, [n] + sources[n].shape,
                Flatten(Payloads(sources[n..])))
    ensures r.Success? <==> var n := |sources| / 2;
              n > 0 && |sources| == 2 * n && OneDtype(sources[..n]) && OneDtype(sources[n..])
  {
    hide OneDtype, Payloads;
    if |sources| == 0 || |sources| % 2 != 0 {
      return Failure(OddSources);
    }
    var n := |sources| / 2;
    var weights, scales := sources[..n], sources[n..];
    var w := StackExpertTensors(name, outDtype, outShape, weights);
    if w.Failure? {
      return Failure(w.error);
    }
    var s := StackExpertTensors(name + ".scale_inv", scales[0].dtype, [n] + scales[0].shape, scales);
    if s.Failure? {
      return Failure(s.error);
    }
    return Success((w.value, s.value));
  }

  // ---- Decoding a stack ---------------------------------------------------

  /** The per-expert decodes. */
  ghost function DecodedParts<E, W, S, P>(ws: seq<Tensor<E>>, ss: seq<Tensor<S>>,
          ar: Arith<E, W, S, P>): (ds: seq<Tensor<W>>)
    requires |ws| == |ss| && Stackable(ws) && Stackable(ss)
    requires |ws[0].dims| == 2 && ss[0].dims == ScaleShape(ws[0].dims)
    ensures Stackable(ds) && |ds| == |ws| && ds[0].dims == ws[0].dims
    ensures forall e | 0 <= e < |ds| :: ds[e] == DecodeBlocks(ws[e], ss[e], ar)
  {
    seq(|ws|, e requires 0 <= e < |ws| => DecodeBlocks(ws[e], ss[e], ar))
  }

  lemma SlotOf(dims: seq<nat>, n: nat, idx: seq<nat>)
    requires InBounds([n] + dims, idx)
    ensures idx == [idx[0]] + idx[1..] && idx[0] < n && InBounds(dims, idx[1..])
  {
    var i := idx[1..];
    assert forall k | 0 <= k < |i| :: i[k] == idx[k + 1] && ([n] + dims)[k + 1] == dims[k];
  }

  /** Decoding stacked experts with stacked scales is stacking the per-expert decodes. */
  lemma DecodeStacked<E, W, S, P>(ws: seq<Tensor<E>>, ss: seq<Tensor<S>>, ar: Arith<E, W, S, P>)
    requires |ws| == |ss| && Stackable(ws) && Stackable(ss)
    requires |ws[0].dims| == 2 && ss[0].dims == ScaleShape(ws[0].dims)
    ensures DecodeSourceFP8(Some(Stacked(ws)), Some(Stacked(ss)), ar) == Success(Stacked(DecodedParts(ws, ss, ar)))
  {
    hide DecodeBlocks, Stacked, Size, Ravel, Times, InBounds;
    var w, s, parts := Stacked(ws), Stacked(ss), DecodedParts(ws, ss, ar);
    assert s.dims == ScaleShape(w.dims);
    var d := DecodeBlocks(w, s, ar);
    forall idx | InBounds(d.dims, idx) ensures d.At(idx) == Stacked(parts).At(idx) {
      SlotOf(ws[0].dims, |ws|, idx);
      DecodeStackedAt(ws, ss, ar, idx[0], idx[1..]);
    }
    Extensional(d, Stacked(parts));
  }

  /** The scale that the whole stack uses at an element is that of its expert. */
  lemma StackedScaleIndex(dims: seq<nat>, n: nat, e: nat, i: seq<nat>)
    requires |dims| == 2 && InBounds(dims, i) && e < n
    ensures ScaleShape([n] + dims) == [n] + ScaleShape(dims)
    ensures ScaleIndex([e] + i) == [e] + ScaleIndex(i)
    ensures InBounds([n] + dims, [e] + i) && InBounds(ScaleShape(dims), ScaleIndex(i))
  {
    BlockInBounds(dims, i);
  }

  lemma DecodeStackedAt<E, W, S, P>(ws: seq<Tensor<E>>, ss: seq<Tensor<S>>, ar: Arith<E, W, S, P>, e: nat, i: seq<nat>)
    requires |ws| == |ss| && Stackable(ws) && Stackable(ss) && e < |ws|
    requires |ws[0].dims| == 2 && ss[0].dims == ScaleShape(ws[0].dims) && InBounds(ws[0].dims, i)
    ensures Stacked(ss).dims == ScaleShape(Stacked(ws).dims)
    ensures InBounds(Stacked(ws).dims, [e] + i)
    ensures DecodeBlocks(Stacked(ws), Stacked(ss), ar).At([e] + i) == Stacked(DecodedParts(ws, ss, ar)).At([e] + i)
  {
    hide DecodeBlocks, Stacked, Size, Ravel, Times, InBounds, ScaleIndex, ScaleShape;
    StackedScaleIndex(ws[0].dims, |ws|, e, i);
    StackedAt(ws, e, i);
    StackedAt(ss, e, ScaleIndex(i));
    StackedAt(DecodedParts(ws, ss, ar), e, i);
    DecodeAt(Stacked(ws), Stacked(ss), ar, [e] + i);
    DecodeAt(ws[e], ss[e], ar, i);
  }
}
