/** Position embeddings of compatmigrate/nemotron3.go: bringing a square grid of
    vectors to another side length, over the reals. */
module PositionEmbedding {
  import opened Results
  import opened Shapes

  datatype EmbeddingError = UnsupportedShape | LengthMismatch | WrongData

  // ---- Source layouts -----------------------------------------------------

  /** The side of a square of n, or 0 if n is no square. */
  function SquareSide(n: nat): (s: nat)
    ensures s > 0 ==> s * s == n
    ensures s == 0 ==> forall r: nat | 0 < r <= n :: r * r != n
  {
    SideBelow(n, n)
  }

  function SideBelow(n: nat, s: nat): (r: nat)
    ensures r > 0 ==> r * r == n
    ensures r == 0 ==> forall k: nat | 0 < k <= s :: k * k != n
  {
    if s == 0 then 0 else if s * s == n then s else SideBelow(n, s - 1)
  }

  /** Vector length and number of positions of a shape, if it is one of the four that
      hold a square grid. */
  function Layout(shape: seq<nat>): Option<(nat, nat)> {
    if |shape| == 2 then
      if SquareSide(shape[1]) > 0 then Some((shape[0], shape[1]))
      else if SquareSide(shape[0]) > 0 then Some((shape[1], shape[0]))
      else None
    else if |shape| == 3 then
      if shape[0] == 1 && SquareSide(shape[1]) > 0 then Some((shape[2], shape[1]))
      else if shape[2] == 1 && SquareSide(shape[1]) > 0 then Some((shape[0], shape[1]))
      else None
    else None
  }

  /** A grid of vectors: element emb of the vector at position pos is at Index. */
  datatype Grid = Grid(data: seq<real>, shape: seq<nat>) {
    predicate Valid() { Layout(shape).Some? && |data| == Times(Positions(), Length()) }

    function Length(): nat { if Layout(shape).Some? then Layout(shape).value.0 else 0 }

    function Positions(): nat { if Layout(shape).Some? then Layout(shape).value.1 else 0 }

    function Side(): nat { SquareSide(Positions()) }

    function Index(pos: nat, emb: nat): nat {
      if |shape| == 2 then
        if shape[0] == Length() then emb + Times(pos, Length()) else pos + Times(emb, Positions())
      else if |shape| == 3 && shape[0] == 1 then Times(pos, Length()) + emb
      else Times(emb, Positions()) + pos
    }

    lemma IndexBound(pos: nat, emb: nat)
      requires Valid() && pos < Positions() && emb < Length()
      ensures Index(pos, emb) < |data|
    {
      RowBound(pos, Positions(), emb, Length());
      RowBound(emb, Length(), pos, Positions());
      TimesCommutes(Positions(), Length());
    }

    function At(pos: nat, emb: nat): real
      requires Valid() && pos < Positions() && emb < Length()
    {
      IndexBound(pos, emb);
      data[Index(pos, emb)]
    }
  }

  // ---- Interpolation ------------------------------------------------------

  function Scaled(a: real, b: real, d: real): real
    requires d != 0.0
  {
    a * b / d
  }

  lemma ScaledBound(a: real, b: real, d: real)
    requires 0.0 <= a <= d && b >= 0.0 && d > 0.0
    ensures 0.0 <= Scaled(a, b, d) <= b
  {
    Times3(a, d, b);
    DivideBoth(0.0, a * b, d);
    DivideBoth(a * b, d * b, d);
  }

  lemma Times3(a: real, d: real, b: real)
    requires 0.0 <= a <= d && b >= 0.0
    ensures 0.0 <= a * b <= d * b
  {}

  lemma DivideBoth(a: real, b: real, d: real)
    requires a <= b && d > 0.0
    ensures a / d <= b / d && 0.0 / d == 0.0
  {}

  lemma ScaledEnds(a: real, b: real, d: real)
    requires d != 0.0
    ensures Scaled(0.0, b, d) == 0.0 && Scaled(d, b, d) == b && Scaled(a, d, d) == a
  {}

  /** The source coordinate of a target coordinate: first on first, last on last. */
  function AlignCorners(t: nat, target: nat, source: nat): real
    requires source > 0
  {
    if target <= 1 then 0.0 else Scaled(t as real, (source - 1) as real, (target - 1) as real)
  }

  /** The source coordinate lies on the source grid. */
  lemma AlignBound(t: nat, target: nat, source: nat)
    requires source > 0 && t < target
    ensures 0.0 <= AlignCorners(t, target, source) <= (source - 1) as real
    ensures t == 0 ==> AlignCorners(t, target, source) == 0.0
    ensures t == target - 1 > 0 ==> AlignCorners(t, target, source) == (source - 1) as real
    ensures target == source ==> AlignCorners(t, target, source) == t as real
  {
    hide Scaled;
    if target > 1 {
      ScaledBound(t as real, (source - 1) as real, (target - 1) as real);
      ScaledEnds(t as real, (source - 1) as real, (target - 1) as real);
    }
  }

  function Low(t: nat, target: nat, source: nat): (k: nat)
    requires source > 0 && t < target
    ensures k < source && k as real <= AlignCorners(t, target, source) < k as real + 1.0
  {
    AlignBound(t, target, source);
    AlignCorners(t, target, source).Floor
  }

  function High(t: nat, target: nat, source: nat): (k: nat)
    requires source > 0 && t < target
    ensures k < source
  {
    var next := Low(t, target, source) + 1;
    if next < source - 1 then next else source - 1
  }

  function Weight(t: nat, target: nat, source: nat): (w: real)
    requires source > 0 && t < target
    ensures 0.0 <= w < 1.0
  {
    AlignCorners(t, target, source) - Low(t, target, source) as real
  }

  function Blend(a: real, b: real, w: real): real { a * (1.0 - w) + b * w }

  /** Element emb at row y and column x of the resampled grid. */
  function Resampled(g: Grid, target: nat, y: nat, x: nat, emb: nat): real
    requires g.Valid() && g.Side() > 0 && y < target && x < target && emb < g.Length()
  {
    var s := g.Side();
    var y0, y1, x0, x1 := Low(y, target, s), High(y, target, s), Low(x, target, s), High(x, target, s);
    var wy, wx := Weight(y, target, s), Weight(x, target, s);
    Blend(Blend(Cell(g, y0, x0, emb), Cell(g, y0, x1, emb), wx),
          Blend(Cell(g, y1, x0, emb), Cell(g, y1, x1, emb), wx), wy)
  }

  /** Element emb at row y and column x of the source grid. */
  function Cell(g: Grid, y: nat, x: nat, emb: nat): real
    requires g.Valid() && y < g.Side() && x < g.Side() && emb < g.Length()
  {
    CellBound(g, y, x);
    g.At(Times(y, g.Side()) + x, emb)
  }

  lemma CellBound(g: Grid, y: nat, x: nat)
    requires g.Valid() && y < g.Side() && x < g.Side()
    ensures Times(y, g.Side()) + x < g.Positions()
  {
    RowBound(y, g.Side(), x, g.Side());
    TimesIs(g.Side(), g.Side());
  }

  // ---- What resampling does -----------------------------------------------

  function Min(a: real, b: real): real { if a < b then a else b }

  function Max(a: real, b: real): real { if a < b then b else a }

  lemma BlendBetween(a: real, b: real, w: real)
    requires 0.0 <= w <= 1.0
    ensures Min(a, b) <= Blend(a, b, w) <= Max(a, b)
    ensures w == 0.0 ==> Blend(a, b, w) == a
  {
    assert Blend(a, b, w) - a == (b - a) * w && b - Blend(a, b, w) == (b - a) * (1.0 - w);
    if b >= a { Signs(b - a, w); Signs(b - a, 1.0 - w); } else { Signs(a - b, w); Signs(a - b, 1.0 - w); }
  }

  lemma Signs(d: real, w: real)
    requires d >= 0.0 && w >= 0.0
    ensures d * w >= 0.0
  {}

  /** Each element lies between the least and the greatest of its four neighbours. */
  lemma BetweenNeighbours(g: Grid, target: nat, y: nat, x: nat, emb: nat)
    requires g.Valid() && g.Side() > 0 && y < target && x < target && emb < g.Length()
    ensures var s := g.Side();
            var y0, y1, x0, x1 := Low(y, target, s), High(y, target, s), Low(x, target, s), High(x, target, s);
            var a, b, c, d := Cell(g, y0, x0, emb), Cell(g, y0, x1, emb), Cell(g, y1, x0, emb), Cell(g, y1, x1, emb);
            Min(Min(a, b), Min(c, d)) <= Resampled(g, target, y, x, emb) <= Max(Max(a, b), Max(c, d))
  {
    hide Blend, Cell, Low, High, Weight;
    var s := g.Side();
    var y0, y1, x0, x1 := Low(y, target, s), High(y, target, s), Low(x, target, s), High(x, target, s);
    var wy, wx := Weight(y, target, s), Weight(x, target, s);
    BlendBetween(Cell(g, y0, x0, emb), Cell(g, y0, x1, emb), wx);
    BlendBetween(Cell(g, y1, x0, emb), Cell(g, y1, x1, emb), wx);
    BlendBetween(Blend(Cell(g, y0, x0, emb), Cell(g, y0, x1, emb), wx),
      Blend(Cell(g, y1, x0, emb), Cell(g, y1, x1, emb), wx), wy);
  }

  /** Where the source coordinate is whole, resampling takes that row and column. */
  lemma OnTheGrid(g: Grid, target: nat, y: nat, x: nat, emb: nat, i: nat, j: nat)
    requires g.Valid() && g.Side() > 0 && y < target && x < target && emb < g.Length() && i < g.Side() && j < g.Side()
    requires AlignCorners(y, target, g.Side()) == i as real && AlignCorners(x, target, g.Side()) == j as real
    ensures Resampled(g, target, y, x, emb) == Cell(g, i, j, emb)
  {
    hide Blend, Cell, AlignCorners;
    var s := g.Side();
    var y0, y1, x0, x1 := Low(y, target, s), High(y, target, s), Low(x, target, s), High(x, target, s);
    assert y0 == i && x0 == j && Weight(y, target, s) == 0.0 && Weight(x, target, s) == 0.0;
    BlendBetween(Cell(g, y0, x0, emb), Cell(g, y0, x1, emb), 0.0);
    BlendBetween(Blend(Cell(g, y0, x0, emb), Cell(g, y0, x1, emb), 0.0),
      Blend(Cell(g, y1, x0, emb), Cell(g, y1, x1, emb), 0.0), 0.0);
  }

  /** The grid's four corners are kept exactly. */
  lemma CornersKept(g: Grid, target: nat, bottom: bool, right: bool, emb: nat)
    requires g.Valid() && g.Side() > 0 && target > 1 && emb < g.Length()
    ensures var y, x := if bottom then target - 1 else 0, if right then target - 1 else 0;
            var i, j := if bottom then g.Side() - 1 else 0, if right then g.Side() - 1 else 0;
            Resampled(g, target, y, x, emb) == Cell(g, i, j, emb)
  {
    hide Cell, AlignCorners;
    var y, x := if bottom then target - 1 else 0, if right then target - 1 else 0;
    AlignBound(y, target, g.Side());
    AlignBound(x, target, g.Side());
    OnTheGrid(g, target, y, x, emb, if bottom then g.Side() - 1 else 0, if right then g.Side() - 1 else 0);
  }

  /** At the same side, resampling changes nothing. */
  lemma SameSideKept(g: Grid, y: nat, x: nat, emb: nat)
    requires g.Valid() && y < g.Side() && x < g.Side() && emb < g.Length()
    ensures Resampled(g, g.Side(), y, x, emb) == Cell(g, y, x, emb)
  {
    hide Cell, AlignCorners;
    AlignBound(y, g.Side(), g.Side());
    AlignBound(x, g.Side(), g.Side());
    OnTheGrid(g, g.Side(), y, x, emb, y, x);
  }

  // ---- The whole grid -----------------------------------------------------

  /** Where element emb at row y and column x of the output is. */
  function Place(target: nat, length: nat, y: nat, x: nat, emb: nat): nat {
    emb + Times(Times(y, target) + x, length)
  }

  function OutSize(target: nat, length: nat): nat { Times(Times(target, target), length) }

  lemma PlaceBound(target: nat, length: nat, y: nat, x: nat, emb: nat)
    requires y < target && x < target && emb < length
    ensures Times(y, target) + x < Times(target, target) && Place(target, length, y, x, emb) < OutSize(target, length)
  {
    RowBound(y, target, x, target);
    RowBound(Times(y, target) + x, Times(target, target), emb, length);
  }

  /** Every place of the output is some element of some row and column. */
  lemma PlaceOf(target: nat, length: nat, k: nat) returns (y: nat, x: nat, emb: nat)
    requires k < OutSize(target, length)
    ensures y < target && x < target && emb < length && k == Place(target, length, y, x, emb)
  {
    RowOf(k, Times(target, target), length);
    RowOf(k / length, target, target);
    y, x, emb := k / length / target, k / length % target, k % length;
  }

  /** out is the resampled grid, vector after vector. */
  ghost predicate IsResampled(g: Grid, target: nat, out: seq<real>)
    requires g.Valid() && g.Side() > 0
  {
    |out| == OutSize(target, g.Length()) &&
    forall y, x, emb | 0 <= y < target && 0 <= x < target && 0 <= emb < g.Length() :: Holds(g, target, out, y, x, emb)
  }

  ghost predicate Holds(g: Grid, target: nat, out: seq<real>, y: nat, x: nat, emb: nat)
    requires g.Valid() && g.Side() > 0 && y < target && x < target && emb < g.Length() &&
              |out| == OutSize(target, g.Length())
  {
    PlaceBound(target, g.Length(), y, x, emb);
    out[Place(target, g.Length(), y, x, emb)] == Resampled(g, target, y, x, emb)
  }

  /** The resampled grid. */
  ghost function Output(g: Grid, target: nat): (out: seq<real>)
    requires g.Valid() && g.Side() > 0
    ensures IsResampled(g, target, out)
  {
    var length := g.Length();
    var out := seq(OutSize(target, length), k requires 0 <= k < OutSize(target, length) => OutputAt(g, target, k));
    assert IsResampled(g, target, out) by { OutputHolds(g, target, out); }
    out
  }

  /** What stands at one place of it. */
  ghost function OutputAt(g: Grid, target: nat, k: nat): real
    requires g.Valid() && g.Side() > 0 && k < OutSize(target, g.Length())
  {
    RowOf(k, Times(target, target), g.Length());
    RowOf(k / g.Length(), target, target);
    Resampled(g, target, k / g.Length() / target, k / g.Length() % target, k % g.Length())
  }

  lemma OutputHolds(g: Grid, target: nat, out: seq<real>)
    requires g.Valid() && g.Side() > 0 && |out| == OutSize(target, g.Length())
    requires forall k | 0 <= k < |out| :: out[k] == OutputAt(g, target, k)
    ensures IsResampled(g, target, out)
  {
    hide Grid.Valid, Grid.Positions, Grid.Length, Times, Resampled;
    forall y, x, emb | 0 <= y < target && 0 <= x < target && 0 <= emb < g.Length()
      ensures Holds(g, target, out, y, x, emb)
    {
      OutputIsResampled(g, target, y, x, emb);
    }
  }

  lemma OutputIsResampled(g: Grid, target: nat, y: nat, x: nat, emb: nat)
    requires g.Valid() && g.Side() > 0 && y < target && x < target && emb < g.Length()
    ensures Place(target, g.Length(), y, x, emb) < OutSize(target, g.Length())
    ensures OutputAt(g, target, Place(target, g.Length(), y, x, emb)) == Resampled(g, target, y, x, emb)
  {
    hide Grid.Valid, Grid.Positions, Grid.Length, Times, Resampled;
    var length := g.Length();
    PlaceBound(target, length, y, x, emb);
    var k, row := Place(target, length, y, x, emb), Times(y, target) + x;
    RowOf(k, Times(target, target), length);
    RowUnique(k / length, k % length, row, emb, length);
    RowOf(row, target, target);
    RowUnique(row / target, row % target, y, x, target);
  }

  /** There is only one. */
  lemma OutputIs(g: Grid, target: nat, out: seq<real>)
    requires g.Valid() && g.Side() > 0 && IsResampled(g, target, out)
    ensures out == Output(g, target)
  {
    SameVectors(g, g, target, out, Output(g, target));
  }

  /** Both grids have the same vectors. */
  ghost predicate SameGrid(g: Grid, h: Grid)
    requires g.Valid() && h.Valid()
  {
    g.Length() == h.Length() && g.Positions() == h.Positions() &&
    forall pos, emb | 0 <= pos < g.Positions() && 0 <= emb < g.Length() :: g.At(pos, emb) == h.At(pos, emb)
  }

  lemma SameVectors(g: Grid, h: Grid, target: nat, a: seq<real>, b: seq<real>)
    requires g.Valid() && h.Valid() && g.Side() > 0 && h.Side() > 0 && SameGrid(g, h)
    requires IsResampled(g, target, a) && IsResampled(h, target, b)
    ensures a == b
  {
    hide Grid.Length, Grid.Positions, Grid.Valid, Times, Blend, Low, High, Weight;
    forall k: nat | k < |a| ensures a[k] == b[k] {
      var y, x, emb := PlaceOf(target, g.Length(), k);
      assert Holds(g, target, a, y, x, emb) && Holds(h, target, b, y, x, emb);
      SameResampled(g, h, target, y, x, emb);
    }
  }

  lemma SameResampled(g: Grid, h: Grid, target: nat, y: nat, x: nat, emb: nat)
    requires g.Valid() && h.Valid() && g.Side() > 0 && SameGrid(g, h) && y < target && x < target && emb < g.Length()
    ensures h.Side() == g.Side() && Resampled(g, target, y, x, emb) == Resampled(h, target, y, x, emb)
  {
    hide Blend, Low, High, Weight, Grid.Length, Grid.Positions, Grid.Valid, Times;
    forall i, j | 0 <= i < g.Side() && 0 <= j < g.Side() ensures Cell(g, i, j, emb) == Cell(h, i, j, emb) {
      CellBound(g, i, j);
    }
  }

  // ---- The methods --------------------------------------------------------

  /** Reads the grid vector by vector, whatever its layout. */
  method Normalize(g: Grid) returns (out: seq<real>)
    requires g.Valid()
    ensures |out| == |g.data|
    ensures forall pos, emb | 0 <= pos < g.Positions() && 0 <= emb < g.Length() ::
              (RowBound(pos, g.Positions(), emb, g.Length()); out[Times(pos, g.Length()) + emb] == g.At(pos, emb))
  {
    hide Times, Grid.Valid, Grid.Positions;
    var length, positions := g.Length(), g.Positions();
    if |g.shape| == 2 && g.shape[0] == length {
      assert forall pos, emb :: g.Index(pos, emb) == Times(pos, length) + emb;
      return g.data;
    }
    var a := new real[|g.data|](_ => 0.0);
    SizeIs(g);
    for pos := 0 to positions
      invariant forall p, e | 0 <= p < pos && 0 <= e < length :: Row(g, a[..], p, e)
    {
      for emb := 0 to length
        invariant forall p, e | 0 <= p < pos && 0 <= e < length :: Row(g, a[..], p, e)
        invariant forall e | 0 <= e < emb :: Row(g, a[..], pos, e)
      {
        RowBound(pos, positions, emb, length);
        ghost var before := a[..];
        a[Times(pos, length) + emb] := g.At(pos, emb);
        forall p, e | 0 <= p <= pos && 0 <= e < length && (p < pos || e <= emb) ensures Row(g, a[..], p, e) {
          RowBound(p, positions, e, length);
          if p != pos || e != emb {
            assert Row(g, before, p, e);
            if Times(p, length) + e == Times(pos, length) + emb { RowUnique(p, e, pos, emb, length); }
          }
        }
      }
    }
    out := a[..];
    forall pos, emb | 0 <= pos < positions && 0 <= emb < length
      ensures Times(pos, length) + emb < |out| && out[Times(pos, length) + emb] == g.At(pos, emb)
    {
      RowBound(pos, positions, emb, length);
      assert Row(g, out, pos, emb);
    }
  }

  lemma SizeIs(g: Grid)
    requires g.Valid()
    ensures |g.data| == Times(g.Positions(), g.Length())
  {}

  /** The vector at pos has its element emb in place. */
  ghost predicate Row(g: Grid, out: seq<real>, pos: nat, emb: nat)
    requires g.Valid() && pos < g.Positions() && emb < g.Length() && |out| == |g.data|
  {
    RowBound(pos, g.Positions(), emb, g.Length());
    out[Times(pos, g.Length()) + emb] == g.At(pos, emb)
  }

  /** The vectors of the first n target positions are in place. */
  ghost predicate Filled(g: Grid, target: nat, out: seq<real>, n: nat)
    requires g.Valid() && g.Side() > 0 && |out| == OutSize(target, g.Length())
  {
    forall y, x, emb | 0 <= y < target && 0 <= x < target && 0 <= emb < g.Length() && Times(y, target) + x < n ::
      Holds(g, target, out, y, x, emb)
  }

  /** Interpolates the vector of one target position into its place. */
  method FillVector(g: Grid, target: nat, y: nat, x: nat, out: array<real>)
    requires g.Valid() && g.Side() > 0 && y < target && x < target && out.Length == OutSize(target, g.Length())
    modifies out
    ensures forall emb | 0 <= emb < g.Length() :: Holds(g, target, out[..], y, x, emb)
    ensures forall k | 0 <= k < out.Length && k < Place(target, g.Length(), y, x, 0) :: out[k] == old(out[k])
  {
    hide Grid.Valid, Grid.Positions, Grid.Length, Times, Blend;
    var side := g.Side();
    var y0, x0 := Low(y, target, side), Low(x, target, side);
    var y1, x1 := if y0 + 1 < side - 1 then y0 + 1 else side - 1, if x0 + 1 < side - 1 then x0 + 1 else side - 1;
    var wy, wx := Weight(y, target, side), Weight(x, target, side);
    for emb := 0 to g.Length()
      invariant forall e | 0 <= e < emb :: Holds(g, target, out[..], y, x, e)
      invariant forall k | 0 <= k < out.Length && k < Place(target, g.Length(), y, x, 0) :: out[k] == old(out[k])
    {
      PlaceBound(target, g.Length(), y, x, emb);
      var v00, v01 := Cell(g, y0, x0, emb), Cell(g, y0, x1, emb);
      var v10, v11 := Cell(g, y1, x0, emb), Cell(g, y1, x1, emb);
      var top, bottom := Blend(v00, v01, wx), Blend(v10, v11, wx);
      ghost var before := out[..];
      out[Place(target, g.Length(), y, x, emb)] := Blend(top, bottom, wy);
      forall e | 0 <= e <= emb ensures Holds(g, target, out[..], y, x, e) {
        if e < emb { assert Holds(g, target, before, y, x, e); }
      }
    }
  }

  lemma FilledNext(g: Grid, target: nat, before: seq<real>, out: seq<real>, y: nat, x: nat)
    requires g.Valid() && g.Side() > 0 && y < target && x < target && |before| == |out| == OutSize(target, g.Length())
    requires Filled(g, target, before, Times(y, target) + x)
    requires forall emb | 0 <= emb < g.Length() :: Holds(g, target, out, y, x, emb)
    requires forall k | 0 <= k < |out| && k < Place(target, g.Length(), y, x, 0) :: out[k] == before[k]
    ensures Filled(g, target, out, Times(y, target) + x + 1)
  {
    hide Grid.Valid, Grid.Positions, Grid.Length, Times, Resampled;
    var n := Times(y, target) + x;
    forall i, j, emb | 0 <= i < target && 0 <= j < target && 0 <= emb < g.Length() && Times(i, target) + j < n + 1
      ensures Holds(g, target, out, i, j, emb)
    {
      if Times(i, target) + j == n {
        RowUnique(i, j, y, x, target);
      } else {
        assert Holds(g, target, before, i, j, emb);
        RowBound(Times(i, target) + j, n, emb, g.Length());
        PlaceBound(target, g.Length(), i, j, emb);
      }
    }
  }

  method Resample(g: Grid, target: nat) returns (out: seq<real>)
    requires g.Valid() && g.Side() > 0
    ensures IsResampled(g, target, out)
  {
    hide Grid.Valid, Grid.Positions, Grid.Length, Times, Holds;
    var a := new real[OutSize(target, g.Length())](_ => 0.0);
    TimesNext(0, target);
    for y := 0 to target
      invariant Filled(g, target, a[..], Times(y, target))
    {
      TimesNext(y, target);
      for x := 0 to target
        invariant Filled(g, target, a[..], Times(y, target) + x)
      {
        ghost var before := a[..];
        FillVector(g, target, y, x, a);
        FilledNext(g, target, before, a[..], y, x);
      }
    }
    out := a[..];
    forall y, x, emb | 0 <= y < target && 0 <= x < target && 0 <= emb < g.Length()
      ensures Holds(g, target, out, y, x, emb)
    {
      RowBound(y, target, x, target);
    }
  }

  /** A shape that holds a grid of vectors of the wanted length, and as much data. */
  predicate Accepts(data: seq<real>, shape: seq<nat>, length: nat) {
    Layout(shape).Some? && (length == 0 || length == Layout(shape).value.0) && Grid(data, shape).Valid()
  }

  /** Brings a position embedding to another side; the same side only changes layout. */
  method Downsample(data: seq<real>, shape: seq<nat>, length: nat, target: nat)
    returns (r: Result<seq<real>, EmbeddingError>)
    ensures target == 0 ==> r == Success(data)
    ensures target > 0 ==> (r.Success? <==> Accepts(data, shape, length))
    ensures target > 0 && r.Success? ==>
              Grid(data, shape).Side() > 0 && r.value == Output(Grid(data, shape), target)
  {
    hide Times;
    if target == 0 { return Success(data); }
    var layout := Layout(shape);
    if layout.None? { return Failure(UnsupportedShape); }
    var (detected, positions) := layout.value;
    var wanted := if length == 0 then detected else length;
    if wanted != detected { return Failure(LengthMismatch); }
    TimesIs(positions, wanted);
    TimesCommutes(positions, wanted);
    if |data| != wanted * positions { return Failure(WrongData); }
    var g := Grid(data, shape);
    if SquareSide(positions) == target {
      var out := Normalize(g);
      SameSide(g, out);
      OutputIs(g, target, out);
      r := Success(out);
    } else {
      var out := Resample(g, target);
      OutputIs(g, target, out);
      r := Success(out);
    }
  }

  /** Reading the grid vector by vector is resampling it to its own side. */
  lemma SameSide(g: Grid, out: seq<real>)
    requires g.Valid() && g.Side() > 0 && |out| == |g.data|
    requires forall pos, emb | 0 <= pos < g.Positions() && 0 <= emb < g.Length() ::
               (RowBound(pos, g.Positions(), emb, g.Length()); out[Times(pos, g.Length()) + emb] == g.At(pos, emb))
    ensures IsResampled(g, g.Side(), out)
  {
    hide Resampled;
    SizeIs(g);
    TimesIs(g.Side(), g.Side());
    hide Grid.Valid, Grid.Positions, Grid.Length, Times;
    forall y, x, emb | 0 <= y < g.Side() && 0 <= x < g.Side() && 0 <= emb < g.Length()
      ensures Holds(g, g.Side(), out, y, x, emb)
    {
      PlaceBound(g.Side(), g.Length(), y, x, emb);
      CellBound(g, y, x);
      SameSideKept(g, y, x, emb);
    }
  }
}
