/** The decoder's flat location numbering: three square grids, row by row, one after another. */
module Anchors {
  import opened Boxes

  const SCALES := 3
  const LOCATIONS := 18900

  /** Distances from a cell's anchor to the four sides, in grid units. */
  datatype Sides = Sides(left: real, top: real, right: real, bottom: real)

  datatype Cell = Cell(scale: nat, row: nat, column: nat)

  function Stride(scale: nat): nat {
    if scale == 0 then 8 else if scale == 1 then 16 else 32
  }

  function Size(scale: nat): nat {
    if scale == 0 then 120 else if scale == 1 then 60 else 30
  }

  /** Locations on the finer scales. */
  function Offset(scale: nat): nat {
    if scale == 0 then 0 else Offset(scale - 1) + Size(scale - 1) * Size(scale - 1)
  }

  predicate OnGrid(c: Cell) {
    c.scale < SCALES && c.row < Size(c.scale) && c.column < Size(c.scale)
  }

  function Flat(c: Cell): nat {
    Offset(c.scale) + c.row * Size(c.scale) + c.column
  }

  function CellOf(location: nat): Cell {
    Offsets();
    var scale := if location < Offset(1) then 0 else if location < Offset(2) then 1 else 2;
    var within := location - Offset(scale);
    Cell(scale, within / Size(scale), within % Size(scale))
  }

  predicate Precedes(a: Cell, b: Cell) {
    a.scale < b.scale
    || (a.scale == b.scale && (a.row < b.row || (a.row == b.row && a.column < b.column)))
  }

  lemma {:induction false} Offsets()
    ensures Offset(1) == 14400 && Offset(2) == 18000 && Offset(3) == LOCATIONS
  {
    assert Offset(1) == Offset(0) + 120 * 120;
    assert Offset(2) == Offset(1) + 60 * 60;
    assert Offset(3) == Offset(2) + 30 * 30;
  }

  /** The numbering is a bijection between the grid cells and the locations. */
  lemma {:induction false} FlatThenCell(c: Cell)
    requires OnGrid(c)
    ensures Flat(c) < LOCATIONS && CellOf(Flat(c)) == c
  {
    Offsets();
    var i := c.row * Size(c.scale) + c.column;
    assert i / Size(c.scale) == c.row && i % Size(c.scale) == c.column;
  }

  lemma {:induction false} CellThenFlat(location: nat)
    requires location < LOCATIONS
    ensures OnGrid(CellOf(location)) && Flat(CellOf(location)) == location
  {
    Offsets();
    var c := CellOf(location);
    var within := location - Offset(c.scale);
    assert within == within / Size(c.scale) * Size(c.scale) + within % Size(c.scale);
  }

  /** Ties go to the lower location, which is the finer scale, then the upper row, then the left
      column. */
  lemma {:induction false} FlatOrder(a: Cell, b: Cell)
    requires OnGrid(a) && OnGrid(b)
    ensures Flat(a) < Flat(b) <==> Precedes(a, b)
  {
    Offsets();
  }

  function BoxAt(c: Cell, s: Sides): Box {
    var x, y := c.column as real + 0.5, c.row as real + 0.5;
    var stride := Stride(c.scale) as real;
    Box((x - s.left) * stride, (y - s.top) * stride, (x + s.right) * stride, (y + s.bottom) * stride)
  }

  // ---------------------------------------------------------------------------------------
  // What a cell's box means

  const IMAGE := 960

  /** The stride's square of the image that the cell stands for. */
  function Square(c: Cell): Box {
    var stride := Stride(c.scale);
    Box((c.column * stride) as real, (c.row * stride) as real,
        ((c.column + 1) * stride) as real, ((c.row + 1) * stride) as real)
  }

  function Center(b: Box): Point {
    Point((b.x1 + b.x2) / 2.0, (b.y1 + b.y2) / 2.0)
  }

  /** The distances from the centre of the cell's square to the sides of the box, in strides. */
  function SidesOf(c: Cell, box: Box): Sides {
    var anchor, stride := Center(Square(c)), Stride(c.scale) as real;
    Sides((anchor.x - box.x1) / stride, (anchor.y - box.y1) / stride,
          (box.x2 - anchor.x) / stride, (box.y2 - anchor.y) / stride)
  }

  /** On a cell every box has exactly one quadruple of distances, and they are those from the
      centre of the cell's square. */
  lemma {:induction false} BoxIffSides(c: Cell, s: Sides, box: Box)
    ensures BoxAt(c, s) == box <==> s == SidesOf(c, box)
  {
  }

  /** A box holds the centre of its cell's square exactly if no distance is negative, and half a
      stride on every side is the square itself. */
  lemma {:induction false} BoxIsAroundAnchor(c: Cell, s: Sides)
    ensures Inside(Center(Square(c)), BoxAt(c, s)) <==>
      s.left >= 0.0 && s.top >= 0.0 && s.right >= 0.0 && s.bottom >= 0.0
    ensures BoxAt(c, Sides(0.5, 0.5, 0.5, 0.5)) == Square(c)
  {
  }

  /** Left and upper edges belong to the square. */
  predicate Covers(c: Cell, p: Point) {
    var b := Square(c);
    b.x1 <= p.x < b.x2 && b.y1 <= p.y < b.y2
  }

  function Interval(x: real, stride: nat): nat
    requires 0.0 <= x && stride > 0
  {
    x.Floor / stride
  }

  /** Every grid cuts the image into the squares of its cells: each point lies on exactly one. */
  lemma {:induction false} SquaresTile(scale: nat, p: Point, c: Cell)
    requires scale < SCALES && 0.0 <= p.x < IMAGE as real && 0.0 <= p.y < IMAGE as real
    ensures OnGrid(c) && c.scale == scale && Covers(c, p)
       <==> c == Cell(scale, Interval(p.y, Stride(scale)), Interval(p.x, Stride(scale)))
  {
  }

  /** One scale, flattened row by row. */
  function Grid<T>(scale: nat, at: Cell -> T): (grid: seq<T>)
    ensures |grid| == Size(scale) * Size(scale)
  {
    seq(Size(scale) * Size(scale), (i: nat) => at(Cell(scale, i / Size(scale), i % Size(scale))))
  }

  lemma {:induction false} GridAt<T>(scale: nat, at: Cell -> T, c: Cell)
    requires OnGrid(c) && c.scale == scale
    ensures c.row * Size(scale) + c.column < |Grid(scale, at)|
    ensures Grid(scale, at)[c.row * Size(scale) + c.column] == at(c)
  {
    var i := c.row * Size(scale) + c.column;
    assert i / Size(scale) == c.row && i % Size(scale) == c.column;
  }

  /** Every cell of the first `scales` scales is at its location. */
  ghost predicate Placed<T(!new)>(flat: seq<T>, at: Cell -> T, scales: nat) {
    && |flat| == Offset(scales)
    && forall c :: OnGrid(c) && c.scale < scales ==> Flat(c) < |flat| && flat[Flat(c)] == at(c)
  }

  lemma {:induction false} GridExtends<T(!new)>(flat: seq<T>, at: Cell -> T, scale: nat)
    requires Placed(flat, at, scale)
    ensures Placed(flat + Grid(scale, at), at, scale + 1)
  {
    forall c | OnGrid(c) && c.scale <= scale
      ensures Flat(c) < |flat + Grid(scale, at)| && (flat + Grid(scale, at))[Flat(c)] == at(c)
    {
      if c.scale == scale {
        GridAt(scale, at, c);
      }
    }
  }

  /** Boxes and scores are numbered alike: every cell's are at its location. */
  method Decode<S(!new)>(sides: Cell -> Sides, scoresAt: Cell -> S) returns (boxes: seq<Box>, scores: seq<S>)
    ensures |boxes| == |scores| == LOCATIONS
    ensures forall c :: OnGrid(c) ==>
      && Flat(c) < LOCATIONS
      && boxes[Flat(c)] == BoxAt(c, sides(c))
      && scores[Flat(c)] == scoresAt(c)
  {
    boxes, scores := [], [];
    var boxAt := (c: Cell) => BoxAt(c, sides(c));
    for scale: nat := 0 to SCALES
      invariant Placed(boxes, boxAt, scale)
      invariant Placed(scores, scoresAt, scale)
    {
      GridExtends(boxes, boxAt, scale);
      GridExtends(scores, scoresAt, scale);
      boxes := boxes + Grid(scale, boxAt);
      scores := scores + Grid(scale, scoresAt);
    }
    Offsets();
  }
}
