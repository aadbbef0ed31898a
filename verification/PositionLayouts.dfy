/** The four layouts in which compatmigrate/nemotron3.go looks for a position embedding,
    and when it reads the matrix that was stored. */
module PositionLayouts {
  import opened PositionEmbedding
  import opened Results
  import opened Shapes

  /** Element emb of the vector at position pos. */
  type Matrix = (nat, nat) -> real

  /** How a matrix of p positions and vectors of l elements is stored: in the shape
      [l, p] or [1, p, l] vector after vector, in [p, l] or [l, p, 1] element after
      element. */
  datatype Storage = LengthPositions | PositionsLength | OneFirst | OneLast

  function ShapeOf(s: Storage, p: nat, l: nat): seq<nat> {
    match s
    case LengthPositions => [l, p]
    case PositionsLength => [p, l]
    case OneFirst => [1, p, l]
    case OneLast => [l, p, 1]
  }

  predicate ByVector(s: Storage) { s == LengthPositions || s == OneFirst }

  function Spot(s: Storage, p: nat, l: nat, pos: nat, emb: nat): nat {
    if ByVector(s) then Times(pos, l) + emb else Times(emb, p) + pos
  }

  function Stored(s: Storage, p: nat, l: nat, m: Matrix): (data: seq<real>)
    ensures |data| == Times(p, l)
  {
    seq(Times(p, l), k requires 0 <= k < Times(p, l) => StoredAt(s, p, l, m, k))
  }

  function StoredAt(s: Storage, p: nat, l: nat, m: Matrix, k: nat): real
    requires k < Times(p, l)
  {
    TimesCommutes(p, l);
    RowOf(k, p, l);
    RowOf(k, l, p);
    if ByVector(s) then m(k / l, k % l) else m(k % p, k / p)
  }

  lemma StoredIs(s: Storage, p: nat, l: nat, m: Matrix, pos: nat, emb: nat)
    requires pos < p && emb < l
    ensures Spot(s, p, l, pos, emb) < Times(p, l) && Stored(s, p, l, m)[Spot(s, p, l, pos, emb)] == m(pos, emb)
  {
    hide Times;
    var k := Spot(s, p, l, pos, emb);
    TimesCommutes(p, l);
    RowBound(pos, p, emb, l);
    RowBound(emb, l, pos, p);
    RowOf(k, p, l);
    RowOf(k, l, p);
    if ByVector(s) {
      RowUnique(k / l, k % l, pos, emb, l);
    } else {
      RowUnique(k / p, k % p, emb, pos, p);
    }
  }

  function GridOf(s: Storage, p: nat, l: nat, m: Matrix): Grid { Grid(Stored(s, p, l, m), ShapeOf(s, p, l)) }

  /** The grid is read as this matrix. */
  ghost predicate ReadAs(g: Grid, p: nat, l: nat, m: Matrix) {
    g.Valid() && g.Length() == l && g.Positions() == p &&
    forall pos, emb | 0 <= pos < p && 0 <= emb < l :: g.At(pos, emb) == m(pos, emb)
  }

  // ---- What is read -------------------------------------------------------

  /** Which of its two readings a shape gets: the one with length l and p positions. */
  predicate Recognized(s: Storage, p: nat, l: nat) {
    s != PositionsLength || SquareSide(l) == 0 || (p == 1 && l == 1)
  }

  lemma IndexIs(s: Storage, p: nat, l: nat, m: Matrix, pos: nat, emb: nat)
    requires SquareSide(p) > 0 && Recognized(s, p, l)
    ensures Layout(ShapeOf(s, p, l)) == Some((l, p))
    ensures pos < p && emb < l ==> GridOf(s, p, l, m).Index(pos, emb) == Spot(s, p, l, pos, emb)
  {
    hide SquareSide, Times, Stored;
    TimesCommutes(pos, l);
    TimesOne(pos);
    TimesOne(emb);
    TimesOne(p);
  }

  /** Recognized storage is read as the matrix stored in it. */
  lemma ReadsMatrix(s: Storage, p: nat, l: nat, m: Matrix)
    requires SquareSide(p) > 0 && Recognized(s, p, l)
    ensures ReadAs(GridOf(s, p, l, m), p, l, m)
  {
    hide SquareSide, Layout, Times, Stored, Spot, Grid.Index;
    var g := GridOf(s, p, l, m);
    IndexIs(s, p, l, m, 0, 0);
    forall pos, emb | 0 <= pos < p && 0 <= emb < l ensures g.At(pos, emb) == m(pos, emb) {
      IndexIs(s, p, l, m, pos, emb);
      StoredIs(s, p, l, m, pos, emb);
    }
  }

  /** A matrix whose element 1 at position 0 differs from its element 0 at position 1. */
  function Unequal(pos: nat, emb: nat): real { if pos == 0 && emb == 1 then 1.0 else 0.0 }

  function Transposed(m: Matrix): Matrix { (pos: nat, emb: nat) => m(emb, pos) }

  /** A square [p, l] is read as its transpose. */
  lemma ReadsTransposed(p: nat, m: Matrix)
    requires SquareSide(p) > 0
    ensures ReadAs(GridOf(PositionsLength, p, p, m), p, p, Transposed(m))
  {
    hide SquareSide, Times, Stored;
    var g := GridOf(PositionsLength, p, p, m);
    assert Layout([p, p]) == Some((p, p));
    forall pos, emb | 0 <= pos < p && 0 <= emb < p ensures g.At(pos, emb) == m(emb, pos) {
      StoredIs(PositionsLength, p, p, m, emb, pos);
      assert g.Index(pos, emb) == Spot(PositionsLength, p, p, emb, pos);
    }
  }

  /** A [p, l] whose length is a square is taken for a grid of l vectors of p elements. */
  lemma ReadsTurned(p: nat, l: nat, m: Matrix)
    requires SquareSide(l) > 0
    ensures Layout(ShapeOf(PositionsLength, p, l)) == Some((p, l)) && GridOf(PositionsLength, p, l, m).Valid()
  {
    hide SquareSide, Stored;
    TimesCommutes(p, l);
  }

  /** Storage is read as the matrix stored in it, whatever the matrix, exactly unless it is
      [p, l] with a square length; a single number is read either way. */
  lemma ReadsEveryMatrixIff(s: Storage, p: nat, l: nat)
    requires SquareSide(p) > 0
    ensures (forall m: Matrix :: ReadAs(GridOf(s, p, l, m), p, l, m)) <==>
            s != PositionsLength || SquareSide(l) == 0 || (p == 1 && l == 1)
  {
    hide SquareSide, GridOf, ReadAs, Layout;
    if Recognized(s, p, l) {
      forall m: Matrix ensures ReadAs(GridOf(s, p, l, m), p, l, m) { ReadsMatrix(s, p, l, m); }
    } else {
      NotRead(p, l);
    }
  }

  lemma NotRead(p: nat, l: nat)
    requires SquareSide(p) > 0 && SquareSide(l) > 0 && (p != 1 || l != 1)
    ensures !ReadAs(GridOf(PositionsLength, p, l, Unequal), p, l, Unequal)
  {
    hide SquareSide, Stored, Times, Layout;
    var g := GridOf(PositionsLength, p, l, Unequal);
    ReadsTurned(p, l, Unequal);
    if p == l {
      ReadsTransposed(p, Unequal);
      assert g.At(1, 0) == 1.0;
    }
  }

  // ---- What comes out -----------------------------------------------------

  /** Downsampling accepts this storage of the matrix. */
  predicate Accepted(s: Storage, p: nat, l: nat, m: Matrix, length: nat) {
    Accepts(Stored(s, p, l, m), ShapeOf(s, p, l), length)
  }

  lemma AcceptedIsGrid(s: Storage, p: nat, l: nat, m: Matrix, length: nat)
    requires Accepted(s, p, l, m, length)
    ensures GridOf(s, p, l, m).Valid() && GridOf(s, p, l, m).Side() > 0
  {}

  /** The two storages of the matrix give one output, if both are accepted. */
  ghost predicate Agree(s: Storage, t: Storage, p: nat, l: nat, m: Matrix, length: nat, target: nat) {
    Accepted(s, p, l, m, length) && Accepted(t, p, l, m, length) ==>
      (AcceptedIsGrid(s, p, l, m, length); AcceptedIsGrid(t, p, l, m, length);
       Output(GridOf(s, p, l, m), target) == Output(GridOf(t, p, l, m), target))
  }

  /** Both are read as the same matrix. */
  lemma RecognizedAgree(s: Storage, t: Storage, p: nat, l: nat, m: Matrix, length: nat, target: nat)
    requires SquareSide(p) > 0 && Recognized(s, p, l) && Recognized(t, p, l)
    ensures Agree(s, t, p, l, m, length, target)
  {
    hide SquareSide, Stored, GridOf, Accepts, Layout, Times, Grid.Index;
    ReadsMatrix(s, p, l, m);
    ReadsMatrix(t, p, l, m);
    if Accepted(s, p, l, m, length) && Accepted(t, p, l, m, length) {
      AcceptedIsGrid(s, p, l, m, length);
      AcceptedIsGrid(t, p, l, m, length);
      var g, h := GridOf(s, p, l, m), GridOf(t, p, l, m);
      SameVectors(g, h, target, Output(g, target), Output(h, target));
    }
  }

  /** The first vector comes out as it is. */
  lemma FirstVector(g: Grid, target: nat, emb: nat)
    requires g.Valid() && g.Side() > 0 && target > 0 && emb < g.Length() && g.Positions() > 0
    ensures Place(target, g.Length(), 0, 0, emb) < OutSize(target, g.Length())
    ensures Output(g, target)[Place(target, g.Length(), 0, 0, emb)] == g.At(0, emb)
  {
    AlignBound(0, target, g.Side());
    OnTheGrid(g, target, 0, 0, emb, 0, 0);
    PlaceBound(target, g.Length(), 0, 0, emb);
    TimesOne(g.Side());
    hide Grid.Valid, Grid.Positions, Grid.Length, Resampled;
    assert Holds(g, target, Output(g, target), 0, 0, emb);
  }

  lemma SquareDisagrees(t: Storage, p: nat, length: nat, target: nat)
    requires SquareSide(p) > 0 && p > 1 && t != PositionsLength && target > 0 && (length == 0 || length == p)
    ensures Accepted(PositionsLength, p, p, Unequal, length) && Accepted(t, p, p, Unequal, length)
    ensures !Agree(PositionsLength, t, p, p, Unequal, length, target)
  {
    hide SquareSide, Stored, GridOf, Layout, Times, Grid.Index, Grid.Valid;
    ReadsTransposed(p, Unequal);
    ReadsMatrix(t, p, p, Unequal);
    BothAccepted(t, p, Unequal, length);
    hide Accepted;
    var g, h := GridOf(PositionsLength, p, p, Unequal), GridOf(t, p, p, Unequal);
    AcceptedIsGrid(PositionsLength, p, p, Unequal, length);
    AcceptedIsGrid(t, p, p, Unequal, length);
    FirstVector(g, target, 1);
    FirstVector(h, target, 1);
    assert g.At(0, 1) == 0.0 && h.At(0, 1) == 1.0;
  }

  lemma BothAccepted(t: Storage, p: nat, m: Matrix, length: nat)
    requires SquareSide(p) > 0 && t != PositionsLength && (length == 0 || length == p)
    ensures Accepted(PositionsLength, p, p, m, length) && Accepted(t, p, p, m, length)
  {
    hide SquareSide, Stored, Times;
    IndexIs(t, p, p, m, 0, 0);
  }

  /** Without a wanted length, the turned grid gives an output of another size. */
  lemma TurnedDisagrees(t: Storage, p: nat, l: nat, m: Matrix, target: nat)
    requires SquareSide(p) > 0 && SquareSide(l) > 0 && p != l && t != PositionsLength && target > 0
    ensures Accepted(PositionsLength, p, l, m, 0) && Accepted(t, p, l, m, 0)
    ensures !Agree(PositionsLength, t, p, l, m, 0, target)
  {
    hide SquareSide, Stored, Times;
    IndexIs(t, p, l, m, 0, 0);
    ReadsTurned(p, l, m);
    AcceptedIsGrid(PositionsLength, p, l, m, 0);
    AcceptedIsGrid(t, p, l, m, 0);
    hide Accepted, GridOf, Layout, Grid.Valid;
    assert GridOf(PositionsLength, p, l, m).Length() == p && GridOf(t, p, l, m).Length() == l;
    Sizes(target, p, l);
  }

  lemma Sizes(target: nat, p: nat, l: nat)
    requires target > 0 && p != l
    ensures OutSize(target, p) != OutSize(target, l)
  {
    var n := Times(target, target);
    assert n > 0;
    if p < l { Distribute(p, l - p, n); } else { Distribute(l, p - l, n); }
    TimesCommutes(n, p);
    TimesCommutes(n, l);
  }

  /** With a wanted length, the turned grid is refused. */
  lemma TurnedRefused(p: nat, l: nat, m: Matrix)
    requires SquareSide(l) > 0 && p != l && l != 0
    ensures !Accepted(PositionsLength, p, l, m, l)
  {
    ReadsTurned(p, l, m);
  }

  /** Two storages of one matrix give the same output, whatever the matrix, exactly if
      neither is [p, l], or the length is no square, or there is a single number, or a
      wanted length makes the code refuse [p, l] because it is not p. */
  lemma LayoutsAgreeIff(s: Storage, t: Storage, p: nat, l: nat, length: nat, target: nat)
    requires SquareSide(p) > 0 && target > 0 && (length == 0 || length == l)
    ensures (forall m: Matrix :: Agree(s, t, p, l, m, length, target)) <==>
            s == t || (s != PositionsLength && t != PositionsLength) || SquareSide(l) == 0 || (p == 1 && l == 1)
            || (length != 0 && l != p)
  {
    hide SquareSide, Accepted, Agree;
    if s == t {
      forall m: Matrix ensures Agree(s, t, p, l, m, length, target) { AgreesWithItself(s, p, l, m, length, target); }
    } else if Recognized(s, p, l) && Recognized(t, p, l) {
      forall m: Matrix ensures Agree(s, t, p, l, m, length, target) { RecognizedAgree(s, t, p, l, m, length, target); }
    } else {
      var other := if s == PositionsLength then t else s;
      forall m: Matrix
        ensures Agree(s, t, p, l, m, length, target) <==> Agree(PositionsLength, other, p, l, m, length, target)
      {
        AgreeSymmetric(s, t, p, l, m, length, target);
      }
      if length != 0 && l != p {
        forall m: Matrix ensures Agree(s, t, p, l, m, length, target) {
          TurnedRefused(p, l, m);
          RefusedAgrees(other, p, l, m, length, target);
        }
      } else if l != p {
        TurnedDisagrees(other, p, l, Unequal, target);
      } else {
        SquareDisagrees(other, p, length, target);
      }
    }
  }

  lemma AgreesWithItself(s: Storage, p: nat, l: nat, m: Matrix, length: nat, target: nat)
    ensures Agree(s, s, p, l, m, length, target)
  {
    hide Accepted;
  }

  lemma AgreeSymmetric(s: Storage, t: Storage, p: nat, l: nat, m: Matrix, length: nat, target: nat)
    ensures Agree(s, t, p, l, m, length, target) <==> Agree(t, s, p, l, m, length, target)
  {
    hide Accepted, GridOf;
  }

  lemma RefusedAgrees(t: Storage, p: nat, l: nat, m: Matrix, length: nat, target: nat)
    requires !Accepted(PositionsLength, p, l, m, length)
    ensures Agree(PositionsLength, t, p, l, m, length, target)
  {
    hide Accepted, GridOf;
  }

  /** Four positions of length four: both shapes are [4, 4], both are accepted with that
      length, and the outputs differ. */
  lemma FourByFour(target: nat)
    requires target > 0
    ensures ShapeOf(LengthPositions, 4, 4) == ShapeOf(PositionsLength, 4, 4) == [4, 4]
    ensures Accepted(LengthPositions, 4, 4, Unequal, 4) && Accepted(PositionsLength, 4, 4, Unequal, 4)
    ensures !Agree(PositionsLength, LengthPositions, 4, 4, Unequal, 4, target)
  {
    assert 2 * 2 == 4;
    SquareDisagrees(LengthPositions, 4, 4, target);
  }

  /** Four positions of length nine, with no wanted length: [9, 4] and [4, 9] are both
      accepted, and the outputs have different sizes. */
  lemma NineByFour(m: Matrix, target: nat)
    requires target > 0
    ensures Accepted(LengthPositions, 4, 9, m, 0) && Accepted(PositionsLength, 4, 9, m, 0)
    ensures !Agree(PositionsLength, LengthPositions, 4, 9, m, 0, target)
  {
    assert 2 * 2 == 4 && 3 * 3 == 9;
    TurnedDisagrees(LengthPositions, 4, 9, m, target);
  }
}
