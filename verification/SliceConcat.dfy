/** Slicing and joining along one dimension: sliceTensorDim and concatTensorDim
    of compatmigrate/tensor_layout.go, and splitSourceTensorDim of
    compatmigrate/tensor_ops.go. */
module SliceConcat {
  import opened Shapes
  import opened TensorLayout
  import opened Results

  // ---- Blocks along one dimension -----------------------------------------

  function Outer(dims: seq<nat>, dim: nat): nat
    requires dim < |dims|
  {
    Size(dims[..dim])
  }

  function Inner(dims: seq<nat>, dim: nat): nat
    requires dim < |dims|
  {
    Size(dims[dim + 1..])
  }

  /** idx with its dim-th index counted from `to` instead of `from`. */
  function Shift(idx: seq<nat>, dim: nat, from: nat, to: nat): seq<nat>
    requires dim < |idx| && from <= idx[dim]
  {
    idx[dim := idx[dim] - from + to]
  }

  lemma ShiftBack(idx: seq<nat>, dim: nat, from: nat, to: nat)
    requires dim < |idx| && from <= idx[dim]
    ensures Shift(idx, dim, from, to)[dim] == idx[dim] - from + to
    ensures Shift(Shift(idx, dim, from, to), dim, to, from) == idx
  {}

  /** The multi-index of entry rest of block i in group o. */
  function Spot(dims: seq<nat>, dim: nat, o: nat, i: nat, rest: nat): (idx: seq<nat>)
    requires dim < |dims| && o < Outer(dims, dim) && i < dims[dim] && rest < Inner(dims, dim)
    ensures InBounds(dims, idx) && idx[dim] == i
    ensures Ravel(dims, idx) == BlockPosition(o, dims[dim], i, Inner(dims, dim), rest)
  {
    var head, tail := Unravel(dims[..dim], o), Unravel(dims[dim + 1..], rest);
    var idx := head + [i] + tail;
    RavelSplitAt(dims, idx, dim);
    assert idx[..dim] == head && idx[dim + 1..] == tail;
    assert forall k | 0 <= k < dim :: dims[k] == dims[..dim][k];
    assert forall k | dim < k < |dims| :: dims[k] == dims[dim + 1..][k - dim - 1];
    idx
  }

  /** Spots of shapes that differ only in dim differ only in dim. */
  lemma SpotMoves(a: seq<nat>, b: seq<nat>, dim: nat, o: nat, i: nat, j: nat, rest: nat)
    requires dim < |a| && |a| == |b| && a == b[dim := a[dim]]
    requires o < Outer(a, dim) && i < a[dim] && j < b[dim] && rest < Inner(a, dim)
    ensures Outer(a, dim) == Outer(b, dim) && Inner(a, dim) == Inner(b, dim)
    ensures Spot(b, dim, o, j, rest) == Spot(a, dim, o, i, rest)[dim := j]
  {
    hide Size, Ravel, Unravel;
    assert a[..dim] == b[..dim] && a[dim + 1..] == b[dim + 1..];
  }

  lemma SpotAt<T>(t: Tensor<T>, dim: nat, o: nat, i: nat, rest: nat)
    requires t.Valid() && dim < |t.dims|
    requires o < Outer(t.dims, dim) && i < t.dims[dim] && rest < Inner(t.dims, dim)
    ensures var p := BlockPosition(o, t.dims[dim], i, Inner(t.dims, dim), rest);
            p < |t.data| && t.At(Spot(t.dims, dim, o, i, rest)) == t.data[p]
  {
    RavelBound(t.dims, Spot(t.dims, dim, o, i, rest));
  }

  // ---- Slicing ------------------------------------------------------------

  /** Elements [start, end) along dim. */
  ghost function Sliced<T>(t: Tensor<T>, dim: nat, start: nat, end: nat): (r: Tensor<T>)
    requires t.Valid() && dim < |t.dims| && start <= end <= t.dims[dim]
    ensures r.Valid() && r.dims == t.dims[dim := end - start]
    ensures forall idx {:trigger r.At(idx)} | InBounds(r.dims, idx) ::
              InBounds(t.dims, Shift(idx, dim, 0, start)) && r.At(idx) == t.At(Shift(idx, dim, 0, start))
  {
    var dims := t.dims[dim := end - start];
    assert forall idx | InBounds(dims, idx) :: InBounds(t.dims, Shift(idx, dim, 0, start)) by {
      forall idx | InBounds(dims, idx) ensures InBounds(t.dims, Shift(idx, dim, 0, start)) {
        assert forall k | 0 <= k < |dims| :: k != dim ==> idx[k] < dims[k];
      }
    }
    Build(dims, idx requires InBounds(dims, idx) => t.At(Shift(idx, dim, 0, start)))
  }

  /** Entry rest of block j, counted from the start of a run of blocks. */
  lemma RunPosition(o: nat, d: nat, start: nat, j: nat, w: nat, rest: nat)
    ensures BlockPosition(o, d, start + j, w, rest) == BlockPosition(o, d, start, w, 0) + Times(j, w) + rest
  {
    Distribute(Times(o, d) + start, j, w);
  }

  /** A run of len blocks inside group o of d blocks ends inside the data. */
  lemma RunBound(outer: nat, o: nat, d: nat, start: nat, len: nat, w: nat)
    requires o < outer && start + len <= d
    ensures BlockPosition(o, d, start, w, 0) + Times(len, w) == BlockPosition(o, d, start + len, w, 0)
         <= Times(outer, Times(d, w))
  {
    RunPosition(o, d, start, len, w, 0);
    TimesLe(o + 1, outer, d);
    TimesLe(Times(o, d) + start + len, Times(outer, d), w);
    TimesAssoc(outer, d, w);
  }

  /** Along dim, a's entries [sa, sa + len) are b's entries [sb, sb + len). */
  ghost predicate RunMatches<T>(a: Tensor<T>, b: Tensor<T>, dim: nat, sa: nat, sb: nat, len: nat)
    requires a.Valid() && b.Valid() && dim < |a.dims|
  {
    && |b.dims| == |a.dims| && a.dims == b.dims[dim := a.dims[dim]]
    && sa + len <= a.dims[dim] && sb + len <= b.dims[dim]
    && forall idx {:trigger a.At(idx)} | InBounds(a.dims, idx) && sa <= idx[dim] < sa + len ::
         var src := Shift(idx, dim, sa, sb);
         InBounds(b.dims, src) && a.At(idx) == b.At(src)
  }

  lemma BlockEntry<T>(a: Tensor<T>, b: Tensor<T>, dim: nat, o: nat, sa: nat, sb: nat, len: nat, i: nat, rest: nat)
    requires a.Valid() && b.Valid() && dim < |a.dims| && RunMatches(a, b, dim, sa, sb, len)
    requires o < Outer(a.dims, dim) && i < len && rest < Inner(a.dims, dim)
    ensures EntryMatches(a.data, b.data, o, a.dims[dim], b.dims[dim], Inner(a.dims, dim), sa, sb, i, rest)
  {
    hide Size, Ravel, Times, BlockPosition;
    SpotMoves(a.dims, b.dims, dim, o, sa + i, sb + i, rest);
    SpotAt(a, dim, o, sa + i, rest);
    SpotAt(b, dim, o, sb + i, rest);
    assert a.At(Spot(a.dims, dim, o, sa + i, rest)) == b.At(Spot(b.dims, dim, o, sb + i, rest));
  }

  /** In group o, entry rest of x's block sx + i is that of y's block sy + i. */
  ghost predicate EntryMatches<T>(x: seq<T>, y: seq<T>, o: nat, dx: nat, dy: nat, w: nat, sx: nat, sy: nat, i: nat,
          rest: nat) {
    var p, q := BlockPosition(o, dx, sx + i, w, rest), BlockPosition(o, dy, sy + i, w, rest);
    p < |x| && q < |y| && x[p] == y[q]
  }

  /** x from p on and y from q on hold the same n entries. */
  ghost predicate SameRun<T>(x: seq<T>, p: nat, y: seq<T>, q: nat, n: nat) {
    p + n <= |x| && q + n <= |y| && x[p..p + n] == y[q..q + n]
  }

  /** Blocks that match entry by entry are equal stretches of flat data. */
  lemma JoinBlocks<T>(x: seq<T>, y: seq<T>, outer: nat, o: nat, dx: nat, dy: nat, w: nat, sx: nat, sy: nat, len: nat)
    requires |x| == Times(outer, Times(dx, w)) && |y| == Times(outer, Times(dy, w)) && o < outer
    requires sx + len <= dx && sy + len <= dy
    requires forall i, rest | 0 <= i < len && 0 <= rest < w :: EntryMatches(x, y, o, dx, dy, w, sx, sy, i, rest)
    ensures SameRun(x, BlockPosition(o, dx, sx, w, 0), y, BlockPosition(o, dy, sy, w, 0), Times(len, w))
  {
    RunBound(outer, o, dx, sx, len, w);
    RunBound(outer, o, dy, sy, len, w);
    var n, p, q := Times(len, w), BlockPosition(o, dx, sx, w, 0), BlockPosition(o, dy, sy, w, 0);
    var runX, runY := x[p..p + n], y[q..q + n];
    forall k | 0 <= k < n ensures runX[k] == runY[k] {
      RowOf(k, len, w);
      assert EntryMatches(x, y, o, dx, dy, w, sx, sy, k / w, k % w);
      RunPosition(o, dx, sx, k / w, w, k % w);
      RunPosition(o, dy, sy, k / w, w, k % w);
    }
  }

  /** Matching runs are equal stretches of the flat data in every group. */
  lemma RunsEqual<T>(a: Tensor<T>, b: Tensor<T>, dim: nat, o: nat, sa: nat, sb: nat, len: nat)
    requires a.Valid() && b.Valid() && dim < |a.dims| && RunMatches(a, b, dim, sa, sb, len)
    requires o < Outer(a.dims, dim)
    ensures var w := Inner(a.dims, dim);
            SameRun(a.data, BlockPosition(o, a.dims[dim], sa, w, 0),
                    b.data, BlockPosition(o, b.dims[dim], sb, w, 0), Times(len, w))
  {
    hide Size, Ravel, Times, BlockPosition;
    assert a.dims[..dim] == b.dims[..dim] && a.dims[dim + 1..] == b.dims[dim + 1..];
    SplitAt(a.dims, dim);
    SplitAt(b.dims, dim);
    var outer, w := Outer(a.dims, dim), Inner(a.dims, dim);
    forall i, rest | 0 <= i < len && 0 <= rest < w
      ensures EntryMatches(a.data, b.data, o, a.dims[dim], b.dims[dim], w, sa, sb, i, rest)
    {
      BlockEntry(a, b, dim, o, sa, sb, len, i, rest);
    }
    JoinBlocks(a.data, b.data, outer, o, a.dims[dim], b.dims[dim], w, sa, sb, len);
  }

  ghost function SliceError<T>(data: seq<T>, dims: seq<int>, dim: int, start: int, end: int): Option<LayoutError> {
    if !IsShape(dims) then Some(BadDims)
    else if !Fits(data, dims) then Some(BadLength)
    else if dim < 0 || dim >= |dims| then Some(BadDim)
    else if start < 0 || end < start || end > dims[dim] then Some(BadRange)
    else None
  }

  method SliceTensorDim<T>(data: seq<T>, dims: seq<int>, dim: int, start: int, end: int)
    returns (r: Result<seq<T>, LayoutError>)
    ensures SliceError(data, dims, dim, start, end) == if r.Failure? then Some(r.error) else None
    ensures r.Success? ==> r.value == Sliced(Tensor(data, dims), dim, start, end).data
  {
    var check := CheckTensorDims(data, dims);
    if check.Failure? {
      return Failure(check.error);
    }
    if dim < 0 || dim >= |dims| {
      return Failure(BadDim);
    }
    if start < 0 || end < start || end > dims[dim] {
      return Failure(BadRange);
    }
    var out := SliceRows(Shaped(data, dims), dim, start, end);
    return Success(out);
  }

  method SliceRows<T>(t: Tensor<T>, dim: nat, start: nat, end: nat) returns (out: seq<T>)
    requires t.Valid() && dim < |t.dims| && start <= end <= t.dims[dim]
    ensures out == Sliced(t, dim, start, end).data
  {
    hide Size, Ravel, Times, BlockPosition, Sliced;
    var outer := TensorSize(t.dims[..dim]);
    var inner := TensorSize(t.dims[dim + 1..]);
    var width := (end - start) * inner;
    TimesIs(end - start, inner);
    TimesOne(width);
    ghost var want := Sliced(t, dim, start, end).data;
    out := [];
    for o := 0 to outer
      invariant FirstRows(want, o, width, out)
    {
      SliceRow(t, dim, start, end, o);
      RowStart(o, end - start, inner);
      BlockPositionIs(o, t.dims[dim], start, inner, 0);
      Distribute(o, 1, width);
      var base := (o * t.dims[dim] + start) * inner;
      out := out + t.data[base..base + width];
    }
    SlicedSize(t, dim, start, end);
  }

  /** out holds the first o rows, of width entries each, of want. */
  ghost predicate FirstRows<T>(want: seq<T>, o: nat, width: nat, out: seq<T>) {
    |out| == Times(o, width) <= |want| && out == want[..|out|]
  }

  lemma SlicedShape<T>(t: Tensor<T>, dim: nat, start: nat, end: nat)
    requires t.Valid() && dim < |t.dims| && start <= end <= t.dims[dim]
    ensures var r := Sliced(t, dim, start, end).dims;
            r[dim] == end - start && Outer(r, dim) == Outer(t.dims, dim) && Inner(r, dim) == Inner(t.dims, dim)
  {
    var r := Sliced(t, dim, start, end).dims;
    assert r[..dim] == t.dims[..dim] && r[dim + 1..] == t.dims[dim + 1..];
  }

  lemma SlicedSize<T>(t: Tensor<T>, dim: nat, start: nat, end: nat)
    requires t.Valid() && dim < |t.dims| && start <= end <= t.dims[dim]
    ensures |Sliced(t, dim, start, end).data| == Times(Outer(t.dims, dim), Times(end - start, Inner(t.dims, dim)))
  {
    SlicedShape(t, dim, start, end);
    SplitAt(Sliced(t, dim, start, end).dims, dim);
  }

  lemma SlicedMatches<T>(t: Tensor<T>, dim: nat, start: nat, end: nat)
    requires t.Valid() && dim < |t.dims| && start <= end <= t.dims[dim]
    ensures RunMatches(Sliced(t, dim, start, end), t, dim, 0, start, end - start)
  {
    var r := Sliced(t, dim, start, end);
    forall idx | InBounds(r.dims, idx)
      ensures InBounds(t.dims, Shift(idx, dim, 0, start)) && r.At(idx) == t.At(Shift(idx, dim, 0, start))
    {
      assert r.At(idx) == t.At(Shift(idx, dim, 0, start));
    }
  }

  /** Row o of the slice is one stretch of the source. */
  lemma SliceRow<T>(t: Tensor<T>, dim: nat, start: nat, end: nat, o: nat)
    requires t.Valid() && dim < |t.dims| && start <= end <= t.dims[dim] && o < Outer(t.dims, dim)
    ensures var w := Inner(t.dims, dim);
            SameRun(Sliced(t, dim, start, end).data, BlockPosition(o, end - start, 0, w, 0),
                    t.data, BlockPosition(o, t.dims[dim], start, w, 0), Times(end - start, w))
  {
    hide Size, Ravel, Times, BlockPosition, Sliced, RunMatches;
    SlicedShape(t, dim, start, end);
    SlicedMatches(t, dim, start, end);
    RunsEqual(Sliced(t, dim, start, end), t, dim, o, 0, start, end - start);
  }

  /** Row o of rows of len blocks each starts after o whole rows. */
  lemma RowStart(o: nat, len: nat, w: nat)
    ensures BlockPosition(o, len, 0, w, 0) == Times(o, Times(len, w))
  {
    TimesAssoc(o, len, w);
  }

  // ---- Joining ------------------------------------------------------------

  /** Valid tensors that agree on every dimension but dim. */
  ghost predicate Joinable<T>(dim: nat, parts: seq<Tensor<T>>) {
    parts != [] && dim < |parts[0].dims| &&
    forall k | 0 <= k < |parts| :: parts[k].Valid() && Agrees(parts[0].dims, dim, parts[k].dims)
  }

  ghost predicate Agrees(dims: seq<int>, dim: nat, other: seq<int>)
    requires dim < |dims|
  {
    |other| == |dims| && forall i | 0 <= i < |dims| && i != dim :: other[i] == dims[i]
  }

  function Widths<T>(dim: nat, parts: seq<Tensor<T>>): (w: seq<nat>)
    requires forall k | 0 <= k < |parts| :: dim < |parts[k].dims|
  {
    seq(|parts|, k requires 0 <= k < |parts| => parts[k].dims[dim])
  }

  /** Where part k begins. */
  function Offset(widths: seq<nat>, k: nat): nat
    requires k <= |widths|
  {
    if k == 0 then 0 else Offset(widths, k - 1) + widths[k - 1]
  }

  lemma {:induction false} OffsetMonotone(widths: seq<nat>, j: nat, k: nat)
    requires j <= k <= |widths|
    ensures Offset(widths, j) <= Offset(widths, k)
  {
    if j < k {
      OffsetMonotone(widths, j, k - 1);
    }
  }

  /** The part that position x along the joined dimension falls in. */
  ghost function Locate(widths: seq<nat>, k: nat, x: nat): (part: nat)
    requires k <= |widths| && x < Offset(widths, k)
    ensures part < k && Offset(widths, part) <= x < Offset(widths, part + 1)
  {
    if Offset(widths, k - 1) <= x then k - 1 else Locate(widths, k - 1, x)
  }

  lemma LocateUnique(widths: seq<nat>, x: nat, part: nat)
    requires part < |widths| && Offset(widths, part) <= x < Offset(widths, part + 1)
    ensures x < Offset(widths, |widths|) && Locate(widths, |widths|, x) == part
  {
    OffsetMonotone(widths, part + 1, |widths|);
    var other := Locate(widths, |widths|, x);
    if other < part {
      OffsetMonotone(widths, other + 1, part);
    } else if part < other {
      OffsetMonotone(widths, part + 1, other);
    }
  }

  function JoinedDims<T>(dim: nat, parts: seq<Tensor<T>>): seq<nat>
    requires Joinable(dim, parts)
  {
    parts[0].dims[dim := Offset(Widths(dim, parts), |parts|)]
  }

  /** The element of the joined tensor: that of the part it falls in. */
  ghost function JoinedAt<T>(dim: nat, parts: seq<Tensor<T>>, idx: seq<nat>): T
    requires Joinable(dim, parts) && InBounds(JoinedDims(dim, parts), idx)
  {
    var w := Widths(dim, parts);
    var k := Locate(w, |w|, idx[dim]);
    PartInBounds(dim, parts, idx, k);
    parts[k].At(Shift(idx, dim, Offset(w, k), 0))
  }

  lemma PartInBounds<T>(dim: nat, parts: seq<Tensor<T>>, idx: seq<nat>, k: nat)
    requires Joinable(dim, parts) && InBounds(JoinedDims(dim, parts), idx) && k < |parts|
    requires Offset(Widths(dim, parts), k) <= idx[dim] < Offset(Widths(dim, parts), k + 1)
    ensures InBounds(parts[k].dims, Shift(idx, dim, Offset(Widths(dim, parts), k), 0))
  {
    assert Agrees(parts[0].dims, dim, parts[k].dims);
    var src := Shift(idx, dim, Offset(Widths(dim, parts), k), 0);
    forall i | 0 <= i < |src| ensures src[i] < parts[k].dims[i] {
      assert idx[i] < JoinedDims(dim, parts)[i];
    }
  }

  /** The parts side by side along dim. */
  ghost function Joined<T>(dim: nat, parts: seq<Tensor<T>>): (r: Tensor<T>)
    requires Joinable(dim, parts)
    ensures r.Valid() && r.dims == JoinedDims(dim, parts)
    ensures forall idx {:trigger r.At(idx)} | InBounds(r.dims, idx) :: r.At(idx) == JoinedAt(dim, parts, idx)
  {
    Build(JoinedDims(dim, parts), idx requires InBounds(JoinedDims(dim, parts), idx) => JoinedAt(dim, parts, idx))
  }

  lemma JoinedAtPart<T>(dim: nat, parts: seq<Tensor<T>>, idx: seq<nat>, k: nat)
    requires Joinable(dim, parts) && InBounds(JoinedDims(dim, parts), idx) && k < |parts|
    requires Offset(Widths(dim, parts), k) <= idx[dim] < Offset(Widths(dim, parts), k + 1)
    ensures var src := Shift(idx, dim, Offset(Widths(dim, parts), k), 0);
            InBounds(parts[k].dims, src) && Joined(dim, parts).At(idx) == parts[k].At(src)
  {
    hide Size, Ravel, Times, BlockPosition;
    PartInBounds(dim, parts, idx, k);
    LocateUnique(Widths(dim, parts), idx[dim], k);
    assert Joined(dim, parts).At(idx) == JoinedAt(dim, parts, idx);
  }

  /** The joined tensor has the shape of part k but for the joined dimension,
      in which part k's stretch ends inside. */
  lemma JoinedShape<T>(dim: nat, parts: seq<Tensor<T>>, k: nat)
    requires Joinable(dim, parts) && k < |parts|
    ensures var dims := JoinedDims(dim, parts);
            |dims| == |parts[k].dims| && dims == parts[k].dims[dim := dims[dim]] &&
            Offset(Widths(dim, parts), k) + parts[k].dims[dim] <= dims[dim]
  {
    OffsetMonotone(Widths(dim, parts), k + 1, |parts|);
    assert Agrees(parts[0].dims, dim, parts[k].dims);
  }

  /** Part k is the joined tensor's run at its offset. */
  lemma JoinedMatches<T>(dim: nat, parts: seq<Tensor<T>>, k: nat)
    requires Joinable(dim, parts) && k < |parts|
    ensures RunMatches(Joined(dim, parts), parts[k], dim, Offset(Widths(dim, parts), k), 0, parts[k].dims[dim])
  {
    hide Size, Ravel, Times, BlockPosition, Joined, JoinedAt, JoinedDims, Shift;
    JoinedShape(dim, parts, k);
    var r, from := Joined(dim, parts), Offset(Widths(dim, parts), k);
    forall idx | InBounds(r.dims, idx) && from <= idx[dim] < from + parts[k].dims[dim]
      ensures var src := Shift(idx, dim, from, 0);
              InBounds(parts[k].dims, src) && r.At(idx) == parts[k].At(src)
    {
      JoinedAtPart(dim, parts, idx, k);
    }
  }

  // ---- The joining loop ---------------------------------------------------

  datatype Part<T> = Part(data: seq<T>, dims: seq<int>)

  /** What is wrong with one part, given the first part's dimensions. */
  ghost function PartError<T>(dims: seq<int>, dim: nat, p: Part<T>): Option<LayoutError>
    requires dim < |dims|
  {
    if !IsShape(p.dims) then Some(BadDims)
    else if !Fits(p.data, p.dims) then Some(BadLength)
    else if |p.dims| != |dims| then Some(BadRank)
    else if !Agrees(dims, dim, p.dims) then Some(Mismatch)
    else None
  }

  /** The first error of a concatenation, in the order the parts are checked. */
  ghost function ConcatError<T>(dim: int, parts: seq<Part<T>>): Option<LayoutError> {
    if parts == [] then Some(NoTensors)
    else if dim < 0 || dim >= |parts[0].dims| then Some(BadDim)
    else FirstPartError(parts[0].dims, dim, parts)
  }

  ghost function FirstPartError<T>(dims: seq<int>, dim: nat, parts: seq<Part<T>>): (r: Option<LayoutError>)
    requires dim < |dims|
    ensures r.None? <==> forall k | 0 <= k < |parts| :: PartError(dims, dim, parts[k]).None?
  {
    if parts == [] then None
    else if PartError(dims, dim, parts[0]).Some? then PartError(dims, dim, parts[0])
    else FirstPartError(dims, dim, parts[1..])
  }

  function Tensors<T>(parts: seq<Part<T>>): (ts: seq<Tensor<T>>)
    requires forall k | 0 <= k < |parts| :: Fits(parts[k].data, parts[k].dims)
    ensures |ts| == |parts|
    ensures forall k | 0 <= k < |parts| :: ts[k] == Shaped(parts[k].data, parts[k].dims)
  {
    seq(|parts|, k requires 0 <= k < |parts| => Shaped(parts[k].data, parts[k].dims))
  }

  lemma FirstErrorAt<T>(dims: seq<int>, dim: nat, parts: seq<Part<T>>, k: nat)
    requires dim < |dims| && k < |parts| && PartError(dims, dim, parts[k]).Some?
    requires forall j | 0 <= j < k :: PartError(dims, dim, parts[j]).None?
    ensures FirstPartError(dims, dim, parts) == PartError(dims, dim, parts[k])
  {
    if k > 0 {
      FirstErrorAt(dims, dim, parts[1..], k - 1);
    }
  }

  method CheckPart<T>(dims: seq<int>, dim: nat, p: Part<T>) returns (r: Option<LayoutError>)
    requires dim < |dims|
    ensures r == PartError(dims, dim, p)
  {
    var check := CheckTensorDims(p.data, p.dims);
    if check.Failure? {
      return Some(check.error);
    }
    if |p.dims| != |dims| {
      return Some(BadRank);
    }
    for i := 0 to |dims|
      invariant forall j | 0 <= j < i && j != dim :: p.dims[j] == dims[j]
    {
      if i != dim && p.dims[i] != dims[i] {
        return Some(Mismatch);
      }
    }
    return None;
  }

  /** Checks every part and adds up the joined dimension. */
  method ConcatTotal<T>(dim: nat, parts: seq<Part<T>>) returns (r: Result<nat, LayoutError>)
    requires parts != [] && dim < |parts[0].dims|
    ensures FirstPartError(parts[0].dims, dim, parts) == if r.Failure? then Some(r.error) else None
    ensures r.Success? ==> r.value == Offset(Widths(dim, Tensors(parts)), |parts|)
  {
    hide Size, Ravel;
    var first := parts[0].dims;
    var total := 0;
    ghost var w := seq(|parts|, k requires 0 <= k < |parts| => WidthOrZero(dim, parts[k]));
    for k := 0 to |parts|
      invariant forall j | 0 <= j < k :: PartError(first, dim, parts[j]).None?
      invariant total == Offset(w, k)
    {
      var e := CheckPart(first, dim, parts[k]);
      if e.Some? {
        FirstErrorAt(first, dim, parts, k);
        return Failure(e.value);
      }
      total := total + parts[k].dims[dim];
    }
    assert w == Widths(dim, Tensors(parts));
    return Success(total);
  }

  ghost function WidthOrZero<T>(dim: nat, p: Part<T>): nat {
    if dim < |p.dims| && p.dims[dim] >= 0 then p.dims[dim] else 0
  }

  method ConcatTensorDim<T>(dim: int, parts: seq<Part<T>>) returns (r: Result<Tensor<T>, LayoutError>)
    ensures ConcatError(dim, parts) == if r.Failure? then Some(r.error) else None
    ensures r.Success? ==> Joinable(dim, Tensors(parts)) && r.value == Joined(dim, Tensors(parts))
  {
    if |parts| == 0 {
      return Failure(NoTensors);
    }
    if dim < 0 || dim >= |parts[0].dims| {
      return Failure(BadDim);
    }
    var total := ConcatTotal(dim, parts);
    if total.Failure? {
      return Failure(total.error);
    }
    var ts := Tensors(parts);
    assert Joinable(dim, ts);
    var out := JoinRows(dim, ts, total.value);
    return Success(Tensor(out, ts[0].dims[dim := total.value]));
  }

  method JoinRows<T>(dim: nat, parts: seq<Tensor<T>>, total: nat) returns (out: seq<T>)
    requires Joinable(dim, parts) && total == Offset(Widths(dim, parts), |parts|)
    ensures out == Joined(dim, parts).data
  {
    var outer := TensorSize(parts[0].dims[..dim]);
    var inner := TensorSize(parts[0].dims[dim + 1..]);
    JoinedSize(dim, parts);
    out := [];
    for o := 0 to outer
      invariant FirstRows(Joined(dim, parts).data, o, Times(total, inner), out)
    {
      out := JoinGroup(dim, parts, total, inner, o, out);
    }
  }

  /** One round of the outer loop: a row of each part in turn. */
  method JoinGroup<T>(dim: nat, parts: seq<Tensor<T>>, total: nat, inner: nat, o: nat, before: seq<T>)
    returns (out: seq<T>)
    requires Joinable(dim, parts) && total == JoinedDims(dim, parts)[dim] && inner == Inner(JoinedDims(dim, parts), dim)
    requires o < Outer(JoinedDims(dim, parts), dim)
    requires FirstRows(Joined(dim, parts).data, o, Times(total, inner), before)
    ensures FirstRows(Joined(dim, parts).data, o + 1, Times(total, inner), out)
  {
    hide Size, Ravel, Times, BlockPosition, Joined, JoinedAt;
    ghost var w, want := Widths(dim, parts), Joined(dim, parts).data;
    RowStart(o, total, inner);
    out := before;
    for k := 0 to |parts|
      invariant |out| == BlockPosition(o, total, Offset(w, k), inner, 0) <= |want| && out == want[..|out|]
    {
      JoinRow(dim, parts, o, k);
      var width := parts[k].dims[dim] * inner;
      RowStart(o, parts[k].dims[dim], inner);
      TimesIs(parts[k].dims[dim], inner);
      TimesIs(o, width);
      Distribute(o, 1, width);
      TimesIs(o + 1, width);
      TimesOne(width);
      out := out + parts[k].data[o * width..(o + 1) * width];
    }
    assert total == Offset(w, |parts|);
    GroupEnd(o, total, inner);
  }

  lemma JoinedSize<T>(dim: nat, parts: seq<Tensor<T>>)
    requires Joinable(dim, parts)
    ensures var dims, first := JoinedDims(dim, parts), parts[0].dims;
            Outer(dims, dim) == Outer(first, dim) && Inner(dims, dim) == Inner(first, dim) &&
            |Joined(dim, parts).data| == Times(Outer(first, dim), Times(dims[dim], Inner(first, dim)))
  {
    var dims, first := JoinedDims(dim, parts), parts[0].dims;
    assert Agrees(first, dim, parts[0].dims);
    assert dims[..dim] == first[..dim] && dims[dim + 1..] == first[dim + 1..];
    SplitAt(dims, dim);
  }

  lemma GroupEnd(o: nat, d: nat, w: nat)
    ensures BlockPosition(o, d, d, w, 0) == Times(o + 1, Times(d, w))
  {
    TimesAssoc(o + 1, d, w);
  }

  /** In group o of the joined tensor, part k's row sits at its offset. */
  lemma JoinRow<T>(dim: nat, parts: seq<Tensor<T>>, o: nat, k: nat)
    requires Joinable(dim, parts) && k < |parts| && o < Outer(JoinedDims(dim, parts), dim)
    ensures var w, d, inner := Widths(dim, parts), JoinedDims(dim, parts)[dim], Inner(JoinedDims(dim, parts), dim);
            BlockPosition(o, d, Offset(w, k), inner, 0) + Times(w[k], inner)
              == BlockPosition(o, d, Offset(w, k + 1), inner, 0) &&
            SameRun(Joined(dim, parts).data, BlockPosition(o, d, Offset(w, k), inner, 0),
                    parts[k].data, BlockPosition(o, w[k], 0, inner, 0), Times(w[k], inner))
  {
    hide Size, Ravel, Times, BlockPosition, Joined, RunMatches;
    JoinedShape(dim, parts, k);
    var r, w := Joined(dim, parts), Widths(dim, parts);
    JoinedMatches(dim, parts, k);
    RunsEqual(r, parts[k], dim, o, Offset(w, k), 0, w[k]);
    RunBound(o + 1, o, r.dims[dim], Offset(w, k), w[k], Inner(r.dims, dim));
  }

  // ---- Slicing and joining undo each other --------------------------------

  /** Slicing a concatenation at the cumulative offsets returns each part. */
  lemma SliceOfJoined<T>(dim: nat, parts: seq<Tensor<T>>, k: nat)
    requires Joinable(dim, parts) && k < |parts|
    ensures var w := Widths(dim, parts);
            Offset(w, k) <= Offset(w, k + 1) <= JoinedDims(dim, parts)[dim] &&
            Sliced(Joined(dim, parts), dim, Offset(w, k), Offset(w, k + 1)) == parts[k]
  {
    hide Size, Ravel, Joined, JoinedAt, Sliced, Build;
    var w, r := Widths(dim, parts), Joined(dim, parts);
    OffsetMonotone(w, k + 1, |w|);
    var piece := Sliced(r, dim, Offset(w, k), Offset(w, k + 1));
    assert Agrees(parts[0].dims, dim, parts[k].dims);
    assert piece.dims == parts[k].dims;
    forall idx | InBounds(piece.dims, idx) ensures piece.At(idx) == parts[k].At(idx) {
      var src := Shift(idx, dim, 0, Offset(w, k));
      ShiftBack(idx, dim, 0, Offset(w, k));
      assert piece.At(idx) == r.At(src);
      JoinedAtPart(dim, parts, src, k);
    }
    Extensional(piece, parts[k]);
  }

  /** The k-th of consecutive pieces of these widths along dim. */
  ghost function Piece<T>(t: Tensor<T>, dim: nat, widths: seq<nat>, k: nat): (r: Tensor<T>)
    requires t.Valid() && dim < |t.dims| && Offset(widths, |widths|) == t.dims[dim] && k < |widths|
    ensures Offset(widths, k) + widths[k] <= t.dims[dim]
    ensures r == Sliced(t, dim, Offset(widths, k), Offset(widths, k) + widths[k])
  {
    OffsetMonotone(widths, k + 1, |widths|);
    Sliced(t, dim, Offset(widths, k), Offset(widths, k) + widths[k])
  }

  ghost function Pieces<T>(t: Tensor<T>, dim: nat, widths: seq<nat>): (ps: seq<Tensor<T>>)
    requires t.Valid() && dim < |t.dims| && Offset(widths, |widths|) == t.dims[dim]
    ensures |ps| == |widths| && forall k | 0 <= k < |ps| :: ps[k] == Piece(t, dim, widths, k)
  {
    seq(|widths|, k requires 0 <= k < |widths| => Piece(t, dim, widths, k))
  }

  lemma PieceShape<T>(t: Tensor<T>, dim: nat, widths: seq<nat>, k: nat)
    requires t.Valid() && dim < |t.dims| && Offset(widths, |widths|) == t.dims[dim] && k < |widths|
    ensures Piece(t, dim, widths, k).Valid() && Piece(t, dim, widths, k).dims == t.dims[dim := widths[k]]
  {
    hide Size, Ravel, Sliced, Build, Offset;
  }

  lemma PiecesJoinable<T>(t: Tensor<T>, dim: nat, widths: seq<nat>)
    requires t.Valid() && dim < |t.dims| && widths != [] && Offset(widths, |widths|) == t.dims[dim]
    ensures Joinable(dim, Pieces(t, dim, widths)) && Widths(dim, Pieces(t, dim, widths)) == widths
    ensures JoinedDims(dim, Pieces(t, dim, widths)) == t.dims
  {
    hide Size, Ravel, Sliced, Build, Piece, Offset;
    var ps := Pieces(t, dim, widths);
    forall k | 0 <= k < |ps| ensures ps[k].Valid() && ps[k].dims == t.dims[dim := widths[k]] {
      PieceShape(t, dim, widths, k);
    }
  }

  /** Joining all the pieces of a tensor returns the tensor. */
  lemma JoinedOfPieces<T>(t: Tensor<T>, dim: nat, widths: seq<nat>)
    requires t.Valid() && dim < |t.dims| && widths != [] && Offset(widths, |widths|) == t.dims[dim]
    ensures Joinable(dim, Pieces(t, dim, widths)) && Joined(dim, Pieces(t, dim, widths)) == t
  {
    hide Size, Ravel, Joined, JoinedAt, Sliced, Build, Joinable, JoinedDims;
    PiecesJoinable(t, dim, widths);
    var ps := Pieces(t, dim, widths);
    var r := Joined(dim, ps);
    forall idx | InBounds(t.dims, idx) ensures r.At(idx) == t.At(idx) {
      JoinedPieceAt(t, dim, widths, idx);
    }
    Extensional(r, t);
  }

  lemma JoinedPieceAt<T>(t: Tensor<T>, dim: nat, widths: seq<nat>, idx: seq<nat>)
    requires t.Valid() && dim < |t.dims| && widths != [] && Offset(widths, |widths|) == t.dims[dim]
    requires Joinable(dim, Pieces(t, dim, widths)) && Widths(dim, Pieces(t, dim, widths)) == widths
    requires JoinedDims(dim, Pieces(t, dim, widths)) == t.dims && InBounds(t.dims, idx)
    ensures Joined(dim, Pieces(t, dim, widths)).At(idx) == t.At(idx)
  {
    hide Size, Ravel, Joined, JoinedAt, Sliced, Build, Joinable, JoinedDims, Shift;
    var k := Locate(widths, |widths|, idx[dim]);
    JoinedAtPart(dim, Pieces(t, dim, widths), idx, k);
    var src := Shift(idx, dim, Offset(widths, k), 0);
    var piece := Piece(t, dim, widths, k);
    assert InBounds(piece.dims, src);
    ShiftBack(idx, dim, Offset(widths, k), 0);
    assert piece.At(src) == t.At(Shift(src, dim, 0, Offset(widths, k)));
  }

  // ---- splitSourceTensorDim -----------------------------------------------

  datatype SplitError = SplitDim | SplitNames | SplitUneven

  /** One output of a split: its name, shape and range along the dimension. */
  datatype SplitPiece = SplitPiece(name: string, shape: seq<nat>, start: nat, end: nat)

  method SplitSourceTensorDim(shape: seq<nat>, dim: int, names: seq<string>)
    returns (r: Result<seq<SplitPiece>, SplitError>)
    ensures r.Failure? <==> dim < 0 || dim >= |shape| || names == [] || shape[dim] % |names| != 0
    ensures r == Failure(SplitDim) <==> dim < 0 || dim >= |shape|
    ensures r == Failure(SplitNames) <==> 0 <= dim < |shape| && names == []
    ensures r.Success? ==>
              var part := shape[dim] / |names|;
              |r.value| == |names| && forall k | 0 <= k < |names| ::
                r.value[k] == SplitPiece(names[k], shape[dim := part], k * part, k * part + part)
  {
    if dim < 0 || dim >= |shape| {
      return Failure(SplitDim);
    }
    if |names| == 0 {
      return Failure(SplitNames);
    }
    if shape[dim] % |names| != 0 {
      return Failure(SplitUneven);
    }
    var out := [];
    var offset := 0;
    for k := 0 to |names|
      invariant offset == k * (shape[dim] / |names|) && |out| == k
      invariant forall j | 0 <= j < k :: var part := shape[dim] / |names|;
                  out[j] == SplitPiece(names[j], shape[dim := part], j * part, j * part + part)
    {
      var part := shape[dim] / |names|;
      var start, end := offset, offset + part;
      offset := end;
      out := out + [SplitPiece(names[k], shape[dim := part], start, end)];
    }
    return Success(out);
  }

  /** The ranges of an even split are pieces at the cumulative offsets, so
      slicing them out and joining them returns the tensor. */
  lemma SplitPiecesRejoin<T>(t: Tensor<T>, dim: nat, n: nat)
    requires t.Valid() && dim < |t.dims| && n > 0 && t.dims[dim] % n == 0
    ensures var part := t.dims[dim] / n; var widths := seq(n, _ => part);
            Offset(widths, n) == t.dims[dim] &&
            (forall k | 0 <= k < n :: EvenPiece(t, dim, n, k) == Pieces(t, dim, widths)[k]) &&
            Joinable(dim, Pieces(t, dim, widths)) && Joined(dim, Pieces(t, dim, widths)) == t
  {
    hide Size, Sliced, Joined, Joinable, EvenPiece;
    var part := t.dims[dim] / n;
    var widths: seq<nat> := seq(n, _ => part);
    EvenOffset(n, part, n);
    JoinedOfPieces(t, dim, widths);
    forall k | 0 <= k < n ensures EvenPiece(t, dim, n, k) == Pieces(t, dim, widths)[k] {
      EvenPieceIs(t, dim, n, k);
    }
  }

  lemma EvenPieceIs<T>(t: Tensor<T>, dim: nat, n: nat, k: nat)
    requires t.Valid() && dim < |t.dims| && k < n && t.dims[dim] % n == 0
    ensures var widths := seq(n, _ => t.dims[dim] / n);
            Offset(widths, n) == t.dims[dim] && EvenPiece(t, dim, n, k) == Piece(t, dim, widths, k)
  {
    hide Size, Sliced;
    EvenOffset(n, t.dims[dim] / n, n);
    EvenOffset(n, t.dims[dim] / n, k);
  }

  /** The slice that the k-th output of an even n-way split takes. */
  ghost function EvenPiece<T>(t: Tensor<T>, dim: nat, n: nat, k: nat): Tensor<T>
    requires t.Valid() && dim < |t.dims| && k < n && t.dims[dim] % n == 0
  {
    var part := t.dims[dim] / n;
    EvenBound(part, n, k);
    Sliced(t, dim, k * part, k * part + part)
  }

  lemma EvenBound(part: nat, n: nat, k: nat)
    requires k < n
    ensures 0 <= k * part && k * part + part <= n * part
  {
    assert k * part + part == (k + 1) * part;
    assert (k + 1) * part <= n * part;
  }

  lemma {:induction false} EvenOffset(n: nat, part: nat, k: nat)
    requires k <= n
    ensures Offset(seq(n, _ => part), k) == k * part
  {
    if k > 0 {
      EvenOffset(n, part, k - 1);
      assert k * part == (k - 1) * part + part;
    }
  }
}
