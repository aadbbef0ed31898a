/** From plan to weights: running a planned FP8 expert stack through the writer's input
    of create/writer.go and the decoder of create/quantize.go. */
module ExpertImport {
  import opened Results
  import opened Shapes
  import opened PlanTypes
  import opened PlanExperts
  import opened Fp8Plan
  import opened Fp8Decode
  import opened ExpertStack

  // ---- Payloads as elements -----------------------------------------------

  /** How a dtype stores an element: in this many bytes, read by get. */
  datatype Codec<!T, X> = Codec(width: nat, get: seq<T> -> X)

  function Elements<T, X>(data: seq<T>, codec: Codec<T, X>, n: nat): (xs: seq<X>)
    requires |data| == Times(n, codec.width)
    ensures |xs| == n
  {
    if n == 0 then []
    else
      TimesNext(n - 1, codec.width);
      [codec.get(data[..codec.width])] + Elements(data[codec.width..], codec, n - 1)
  }

  lemma {:induction false} ElementsConcat<T, X>(a: seq<T>, b: seq<T>, codec: Codec<T, X>, n: nat, m: nat)
    requires |a| == Times(n, codec.width) && |b| == Times(m, codec.width)
    ensures |a + b| == Times(n + m, codec.width)
    ensures Elements(a + b, codec, n + m) == Elements(a, codec, n) + Elements(b, codec, m)
    decreases n
  {
    var w := codec.width;
    Distribute(n, m, w);
    hide Times;
    if n == 0 {
      TimesNext(0, w);
      assert a + b == b;
    } else {
      TimesNext(n - 1, w);
      ElementsConcat(a[w..], b, codec, n - 1, m);
      assert (a + b)[w..] == a[w..] + b && (a + b)[..w] == a[..w];
    }
  }

  lemma {:induction false} ElementsFlatten<T, X>(parts: seq<seq<T>>, xs: seq<seq<X>>, codec: Codec<T, X>, n: nat)
    requires |xs| == |parts| && forall k | 0 <= k < |parts| ::
               |parts[k]| == Times(n, codec.width) && xs[k] == Elements(parts[k], codec, n)
    ensures |ExpertStack.Flatten(parts)| == Times(Times(|parts|, n), codec.width)
    ensures Elements(ExpertStack.Flatten(parts), codec, Times(|parts|, n)) == ExpertStack.Flatten(xs)
    decreases |parts|
  {
    hide Times, Elements;
    TimesNext(0, n);
    TimesNext(0, codec.width);
    if parts == [] {
      NoElements(codec);
    } else {
      var k := |parts| - 1;
      ElementsFlatten(parts[..k], xs[..k], codec, n);
      TimesNext(k, n);
      ElementsConcat(ExpertStack.Flatten(parts[..k]), parts[k], codec, Times(k, n), n);
    }
  }

  lemma NoElements<T, X>(codec: Codec<T, X>)
    ensures Times(0, codec.width) == 0 && Elements([], codec, 0) == []
  {}

  // ---- Tensors as arrays --------------------------------------------------

  predicate FitsShape<T, X>(d: TensorData<T>, codec: Codec<T, X>) {
    |d.data| == Times(Size(d.shape), codec.width)
  }

  /** The array that a payload of this dtype loads as. */
  function Loaded<T, X>(d: TensorData<T>, codec: Codec<T, X>): (t: Tensor<X>)
    requires FitsShape(d, codec)
    ensures t.Valid() && t.dims == d.shape
  {
    Tensor(Elements(d.data, codec, Size(d.shape)), d.shape)
  }

  ghost predicate OneShape<T, X>(ds: seq<TensorData<T>>, codec: Codec<T, X>) {
    ds != [] && forall k | 0 <= k < |ds| :: FitsShape(ds[k], codec) && ds[k].shape == ds[0].shape
  }

  ghost function AllLoaded<T, X>(ds: seq<TensorData<T>>, codec: Codec<T, X>): (ts: seq<Tensor<X>>)
    requires OneShape(ds, codec)
    ensures ExpertStack.Stackable(ts) && |ts| == |ds| && ts[0].dims == ds[0].shape
    ensures forall k | 0 <= k < |ts| :: ts[k] == Loaded(ds[k], codec)
  {
    seq(|ds|, k requires 0 <= k < |ds| => Loaded(ds[k], codec))
  }

  /** Payloads one after the other load as the stack of what each loads as. */
  lemma LoadedStack<T, X>(name: string, dtype: string, ds: seq<TensorData<T>>, codec: Codec<T, X>)
    requires OneShape(ds, codec)
    ensures var d := TensorData(name, dtype, [|ds|] + ds[0].shape, ExpertStack.Flatten(Payloads(ds)));
            FitsShape(d, codec) && Loaded(d, codec) == Stacked(AllLoaded(ds, codec))
  {
    hide Times, Elements, ExpertStack.Flatten;
    var shape := ds[0].shape;
    assert ([|ds|] + shape)[1..] == shape;
    ElementsFlatten(Payloads(ds), DataOf(AllLoaded(ds, codec)), codec, Size(shape));
  }

  // ---- A planned stack ----------------------------------------------------

  /** A source as it is read: its entry in the inventory and the bytes it stands for. */
  function Read<T>(t: SourceTensor, bytes: SourceTensor -> seq<T>): TensorData<T> {
    TensorData(t.name, t.dtype, t.shape, bytes(t))
  }

  function ReadAll<T>(ts: seq<SourceTensor>, bytes: SourceTensor -> seq<T>): (ds: seq<TensorData<T>>)
    ensures |ds| == |ts| && forall k | 0 <= k < |ds| :: ds[k] == Read(ts[k], bytes)
  {
    seq(|ts|, k requires 0 <= k < |ts| => Read(ts[k], bytes))
  }

  /** The bytes of every tensor of this list fit its shape. */
  predicate AllFit<T, X>(ts: seq<SourceTensor>, bytes: SourceTensor -> seq<T>, codec: Codec<T, X>) {
    forall k | 0 <= k < |ts| :: FitsShape(Read(ts[k], bytes), codec)
  }

  lemma ReadIsOneShape<T, X>(ts: seq<SourceTensor>, bytes: SourceTensor -> seq<T>, codec: Codec<T, X>)
    requires ts != [] && SameLayout(ts) && AllFit(ts, bytes, codec)
    ensures OneShape(ReadAll(ts, bytes), codec) && OneDtype(ReadAll(ts, bytes))
  {
    hide FitsShape;
  }

  /** The decode of expert k by itself. */
  ghost predicate DecodesTo<T, E, W, S, P>(e: Expert, bytes: SourceTensor -> seq<T>, weight: Codec<T, E>,
          scale: Codec<T, S>, ar: Arith<E, W, S, P>, d: Tensor<W>)
    requires FitsShape(Read(e.weight, bytes), weight) && FitsShape(Read(e.scale, bytes), scale)
  {
    DecodeSourceFP8(Some(Loaded(Read(e.weight, bytes), weight)), Some(Loaded(Read(e.scale, bytes), scale)), ar)
      == Success(d)
  }

  lemma Fits<T, X>(ts: seq<SourceTensor>, bytes: SourceTensor -> seq<T>, codec: Codec<T, X>, k: nat)
    requires AllFit(ts, bytes, codec) && k < |ts|
    ensures FitsShape(Read(ts[k], bytes), codec)
  {}

  /** A stacked weight and scale decode to the stack of what each expert decodes to. */
  ghost predicate DecodesAsStack<T, E, W(!new), S, P>(es: seq<Expert>, bytes: SourceTensor -> seq<T>,
          weight: Codec<T, E>, scale: Codec<T, S>, ar: Arith<E, W, S, P>, w: Tensor<E>, s: Tensor<S>)
    requires AllFit(Weights(es), bytes, weight) && AllFit(ScalesOf(es), bytes, scale) && w.Valid() && s.Valid()
  {
    exists parts: seq<Tensor<W>> ::
      |parts| == |es| && ExpertStack.Stackable(parts) &&
      (forall k | 0 <= k < |es| ::
         Fits(Weights(es), bytes, weight, k); Fits(ScalesOf(es), bytes, scale, k);
         DecodesTo(es[k], bytes, weight, scale, ar, parts[k])) &&
      DecodeSourceFP8(Some(w), Some(s), ar) == Success(Stacked(parts))
  }

  lemma StackDecodes<T, E, W(!new), S, P>(es: seq<Expert>, bytes: SourceTensor -> seq<T>, weight: Codec<T, E>,
          scale: Codec<T, S>, ar: Arith<E, W, S, P>)
    requires OneShape(ReadAll(Weights(es), bytes), weight) && OneShape(ReadAll(ScalesOf(es), bytes), scale)
    requires AllFit(Weights(es), bytes, weight) && AllFit(ScalesOf(es), bytes, scale)
    requires es != [] && |es[0].weight.shape| == 2 && es[0].scale.shape == ScaleShape(es[0].weight.shape)
    ensures DecodesAsStack(es, bytes, weight, scale, ar,
              Stacked(AllLoaded(ReadAll(Weights(es), bytes), weight)),
              Stacked(AllLoaded(ReadAll(ScalesOf(es), bytes), scale)))
  {
    hide Elements, Times, Size, Stacked, DecodeBlocks, FitsShape, OneShape, Loaded;
    var wt, st := AllLoaded(ReadAll(Weights(es), bytes), weight), AllLoaded(ReadAll(ScalesOf(es), bytes), scale);
    var parts := DecodedParts(wt, st, ar);
    DecodeStacked(wt, st, ar);
    forall k | 0 <= k < |es|
      ensures FitsShape(Read(es[k].weight, bytes), weight) && FitsShape(Read(es[k].scale, bytes), scale) &&
              DecodesTo(es[k], bytes, weight, scale, ar, parts[k])
    {
      Fits(Weights(es), bytes, weight, k);
      Fits(ScalesOf(es), bytes, scale, k);
      assert wt[k] == Loaded(Read(es[k].weight, bytes), weight) && st[k] == Loaded(Read(es[k].scale, bytes), scale);
      assert wt[k].dims == wt[0].dims && st[k].dims == st[0].dims;
    }
  }

  /** The sources of a planned stack are its weights and then its scales. */
  lemma ReadHalves<T>(es: seq<Expert>, bytes: SourceTensor -> seq<T>)
    requires es != []
    ensures var sources := ReadAll(Weights(es) + ScalesOf(es), bytes);
            |sources| == 2 * |es| && |sources| / 2 == |es| &&
            sources[..|es|] == ReadAll(Weights(es), bytes) && sources[|es|..] == ReadAll(ScalesOf(es), bytes) &&
            sources[|es|] == ReadAll(ScalesOf(es), bytes)[0] && sources[|es|].shape == es[0].scale.shape &&
            sources[0].shape == es[0].weight.shape
  {}

  /** The input of a planned stack of FP8 experts: its sources give a stacked weight and
      a stacked scale that decode to the stack of what each expert decodes to by itself. */
  method DecodeInput<T, E, W(!new), S, P>(gp: string, proj: string, es: seq<Expert>, target: string, policy: Policy,
          bytes: SourceTensor -> seq<T>, ghost weight: Codec<T, E>, ghost scale: Codec<T, S>,
          ghost ar: Arith<E, W, S, P>)
    returns (r: Result<(TensorData<T>, TensorData<T>), StackError>)
    requires es != [] && SameExpertLayout(es)
    requires AllFit(Weights(es), bytes, weight) && AllFit(ScalesOf(es), bytes, scale)
    ensures r.Success? && FitsShape(r.value.0, weight) && FitsShape(r.value.1, scale)
    ensures r.value.0.name == Fp8Stack(gp, proj, es, target, policy).name
    ensures r.value.0.shape == [|es|] + es[0].weight.shape && r.value.1.shape == [|es|] + es[0].scale.shape
    ensures |es[0].weight.shape| == 2 && es[0].scale.shape == ScaleShape(es[0].weight.shape) ==>
              DecodesAsStack(es, bytes, weight, scale, ar, Loaded(r.value.0, weight), Loaded(r.value.1, scale))
  {
    hide SameLayout, AllFit, OneShape, OneDtype, Loaded, FitsShape, Payloads, Stacked, DecodesAsStack;
    var spec := Fp8Stack(gp, proj, es, target, policy);
    var sources := ReadAll(spec.sources, bytes);
    ghost var ws, ss := ReadAll(Weights(es), bytes), ReadAll(ScalesOf(es), bytes);
    ReadHalves(es, bytes);
    hide ReadAll, Weights, ScalesOf;
    ReadIsOneShape(Weights(es), bytes, weight);
    ReadIsOneShape(ScalesOf(es), bytes, scale);
    r := StackedInput(spec.name, spec.outDtype, spec.outShape.value, sources);
    assert r.Success?;
    LoadedStack(spec.name, spec.outDtype, ws, weight);
    LoadedStack(spec.name + ".scale_inv", ss[0].dtype, ss, scale);
    if |es[0].weight.shape| == 2 && es[0].scale.shape == ScaleShape(es[0].weight.shape) {
      StackDecodes(es, bytes, weight, scale, ar);
    }
  }
}
