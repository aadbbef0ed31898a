/** The array operations that create/quantize.go calls, with their numpy meaning. */
module MlxArrays {
  import opened Shapes

  /** Applies f to every element. */
  ghost function Map<A, B>(a: Tensor<A>, f: A -> B): (r: Tensor<B>)
    requires a.Valid()
    ensures r.Valid() && r.dims == a.dims
    ensures forall idx {:trigger r.At(idx)} | InBounds(r.dims, idx) :: r.At(idx) == f(a.At(idx))
  {
    Build(a.dims, idx requires InBounds(a.dims, idx) => f(a.At(idx)))
  }

  /** The same elements in the same order under another shape. */
  ghost function Reshape<A>(a: Tensor<A>, dims: seq<nat>): (r: Tensor<A>)
    requires a.Valid() && Size(dims) == Size(a.dims)
    ensures r.Valid() && r.dims == dims && r.data == a.data
  {
    Tensor(a.data, dims)
  }

  lemma ReshapeAt<A>(a: Tensor<A>, dims: seq<nat>, i: seq<nat>, j: seq<nat>)
    requires a.Valid() && Size(dims) == Size(a.dims)
    requires InBounds(a.dims, i) && InBounds(dims, j) && Ravel(a.dims, i) == Ravel(dims, j)
    ensures Reshape(a, dims).At(j) == a.At(i)
  {}

  /** Adds an axis of length one before position axis. */
  ghost function ExpandDims<A>(a: Tensor<A>, axis: nat): (r: Tensor<A>)
    requires a.Valid() && axis <= |a.dims|
    ensures r.Valid() && r.dims == a.dims[..axis] + [1] + a.dims[axis..] && r.data == a.data
  {
    ExpandedSize(a.dims, axis);
    Tensor(a.data, a.dims[..axis] + [1] + a.dims[axis..])
  }

  lemma ExpandedSize(dims: seq<nat>, axis: nat)
    requires axis <= |dims|
    ensures Size(dims[..axis] + [1] + dims[axis..]) == Size(dims)
  {
    assert dims == dims[..axis] + dims[axis..];
    SizeConcat(dims[..axis], dims[axis..]);
    SizeConcat(dims[..axis] + [1], dims[axis..]);
    SizeConcat(dims[..axis], [1]);
    TimesOne(Size(dims[..axis]));
    TimesOne(1);
  }

  lemma ExpandDimsAt<A>(a: Tensor<A>, axis: nat, idx: seq<nat>)
    requires a.Valid() && axis <= |a.dims| && InBounds(a.dims, idx)
    ensures var j := idx[..axis] + [0] + idx[axis..];
            InBounds(ExpandDims(a, axis).dims, j) && ExpandDims(a, axis).At(j) == a.At(idx)
  {
    hide Size, Ravel, Times;
    var dims, j := ExpandDims(a, axis).dims, idx[..axis] + [0] + idx[axis..];
    assert forall k | 0 <= k < |j| :: j[k] < dims[k];
    assert a.dims == a.dims[..axis] + a.dims[axis..] && idx == idx[..axis] + idx[axis..];
    RavelConcat(a.dims[..axis], a.dims[axis..], idx[..axis], idx[axis..]);
    RavelConcat(a.dims[..axis] + [1], a.dims[axis..], idx[..axis] + [0], idx[axis..]);
    RavelConcat(a.dims[..axis], [1], idx[..axis], [0]);
    UnitAxis(Ravel(a.dims[..axis], idx[..axis]));
  }

  lemma UnitAxis(n: nat)
    ensures Size([1]) == 1 && Ravel([1], [0]) == 0 && Times(n, 1) == n
  {
    assert [1][1..] == [];
  }

  /** One operand's index for an output index: its axes of length one stretch. */
  function Stretch(dims: seq<nat>, idx: seq<nat>): (r: seq<nat>)
    requires |idx| == |dims|
    ensures |r| == |idx|
  {
    seq(|idx|, k requires 0 <= k < |idx| => if dims[k] == 1 then 0 else idx[k])
  }

  ghost predicate Broadcastable(a: seq<nat>, b: seq<nat>) {
    |a| == |b| && forall k | 0 <= k < |a| :: a[k] == b[k] || a[k] == 1 || b[k] == 1
  }

  function BroadcastDims(a: seq<nat>, b: seq<nat>): seq<nat>
    requires |a| == |b|
  {
    seq(|a|, k requires 0 <= k < |a| => if a[k] == 1 then b[k] else a[k])
  }

  /** Elementwise f, each operand's axes of length one stretched to the other's. */
  ghost function Broadcast<A, B, C>(a: Tensor<A>, b: Tensor<B>, f: (A, B) -> C): (r: Tensor<C>)
    requires a.Valid() && b.Valid() && Broadcastable(a.dims, b.dims)
    ensures r.Valid() && r.dims == BroadcastDims(a.dims, b.dims)
    ensures forall idx {:trigger r.At(idx)} | InBounds(r.dims, idx) ::
              InBounds(a.dims, Stretch(a.dims, idx)) && InBounds(b.dims, Stretch(b.dims, idx)) &&
              r.At(idx) == f(a.At(Stretch(a.dims, idx)), b.At(Stretch(b.dims, idx)))
  {
    var dims := BroadcastDims(a.dims, b.dims);
    assert forall idx {:trigger InBounds(dims, idx)} | InBounds(dims, idx) ::
        InBounds(a.dims, Stretch(a.dims, idx)) && InBounds(b.dims, Stretch(b.dims, idx)) by {
      forall idx | InBounds(dims, idx)
        ensures InBounds(a.dims, Stretch(a.dims, idx)) && InBounds(b.dims, Stretch(b.dims, idx))
      {
        assert forall k | 0 <= k < |dims| :: idx[k] < dims[k];
      }
    }
    Build(dims, idx requires InBounds(dims, idx) => f(a.At(Stretch(a.dims, idx)), b.At(Stretch(b.dims, idx))))
  }

  /** Appends high[k] entries equal to fill at the end of each axis k. */
  ghost function PadEnd<A>(a: Tensor<A>, high: seq<nat>, fill: A): (r: Tensor<A>)
    requires a.Valid() && |high| == |a.dims|
    ensures r.Valid() && r.dims == seq(|high|, k requires 0 <= k < |high| => a.dims[k] + high[k])
    ensures forall idx {:trigger r.At(idx)} | InBounds(r.dims, idx) ::
              r.At(idx) == if InBounds(a.dims, idx) then a.At(idx) else fill
  {
    Build(seq(|high|, k requires 0 <= k < |high| => a.dims[k] + high[k]),
          idx => if InBounds(a.dims, idx) then a.At(idx) else fill)
  }

  /** Entries [0, stops[k]) along each axis k. */
  ghost function SliceStops<A>(a: Tensor<A>, stops: seq<nat>): (r: Tensor<A>)
    requires a.Valid() && |stops| == |a.dims| && forall k | 0 <= k < |stops| :: stops[k] <= a.dims[k]
    ensures r.Valid() && r.dims == stops
    ensures forall idx {:trigger r.At(idx)} | InBounds(stops, idx) :: InBounds(a.dims, idx) && r.At(idx) == a.At(idx)
  {
    assert forall idx {:trigger InBounds(a.dims, idx)} | InBounds(stops, idx) :: InBounds(a.dims, idx) by {
      forall idx | InBounds(stops, idx) ensures InBounds(a.dims, idx) {
        assert forall k | 0 <= k < |idx| :: idx[k] < stops[k];
      }
    }
    var r := Build(stops, idx requires InBounds(stops, idx) => a.At(idx));
    assert forall idx {:trigger r.At(idx)} | InBounds(stops, idx) :: InBounds(a.dims, idx);
    r
  }
}
