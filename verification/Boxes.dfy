/** Axis-aligned boxes and their intersection over union. */
module Boxes {
  datatype Box = Box(x1: real, y1: real, x2: real, y2: real)

  const TINY := 0.000000000001

  function MaxR(a: real, b: real): real {
    if a >= b then a else b
  }

  function MinR(a: real, b: real): real {
    if a <= b then a else b
  }

  function Area(b: Box): real {
    MaxR(0.0, b.x2 - b.x1) * MaxR(0.0, b.y2 - b.y1)
  }

  /** The common length of two intervals. */
  function Common(a1: real, a2: real, b1: real, b2: real): (r: real)
    ensures r >= 0.0 && r <= MaxR(0.0, a2 - a1) && r <= MaxR(0.0, b2 - b1)
  {
    MaxR(0.0, MinR(a2, b2) - MaxR(a1, b1))
  }

  function Intersection(a: Box, b: Box): real {
    Common(a.x1, a.x2, b.x1, b.x2) * Common(a.y1, a.y2, b.y1, b.y2)
  }

  function Union(a: Box, b: Box): real {
    MaxR(Area(a) + Area(b) - Intersection(a, b), TINY)
  }

  function Iou(a: Box, b: Box): real {
    Intersection(a, b) / Union(a, b)
  }

  lemma {:induction false} CommonSymmetric(a1: real, a2: real, b1: real, b2: real)
    ensures Common(a1, a2, b1, b2) == Common(b1, b2, a1, a2)
  {
  }

  lemma {:induction false} IntersectionSymmetric(a: Box, b: Box)
    ensures Intersection(a, b) == Intersection(b, a)
  {
    CommonSymmetric(a.x1, a.x2, b.x1, b.x2);
    CommonSymmetric(a.y1, a.y2, b.y1, b.y2);
  }

  lemma {:induction false} ProductAtMost(a: real, b: real, c: real, d: real)
    requires 0.0 <= a <= c && 0.0 <= b <= d
    ensures 0.0 <= a * b <= c * d
  {
    assert a * b <= a * d <= c * d;
  }

  lemma {:induction false} IntersectionAtMostArea(a: Box, b: Box)
    ensures 0.0 <= Intersection(a, b) <= Area(a)
  {
    ProductAtMost(Common(a.x1, a.x2, b.x1, b.x2), Common(a.y1, a.y2, b.y1, b.y2),
                  MaxR(0.0, a.x2 - a.x1), MaxR(0.0, a.y2 - a.y1));
  }

  lemma {:induction false} QuotientInUnit(n: real, d: real)
    requires 0.0 <= n <= d && d > 0.0
    ensures 0.0 <= n / d <= 1.0
  {
    assert n / d * d == n && (1.0 - n / d) * d == d - n;
    NonNegativeFactor(n / d, d);
    NonNegativeFactor(1.0 - n / d, d);
  }

  lemma {:induction false} NonNegativeFactor(x: real, d: real)
    requires d > 0.0 && x * d >= 0.0
    ensures x >= 0.0
  {
  }

  lemma {:induction false} UnionBounds(a: Box, b: Box)
    ensures 0.0 <= Intersection(a, b) <= Union(a, b) && Union(a, b) > 0.0
  {
    IntersectionAtMostArea(a, b);
    IntersectionAtMostArea(b, a);
    IntersectionSymmetric(a, b);
  }

  /** For every pair of boxes, degenerate and inverted ones included. */
  lemma {:induction false} IouInUnit(a: Box, b: Box)
    ensures 0.0 <= Iou(a, b) <= 1.0
  {
    UnionBounds(a, b);
    QuotientInUnit(Intersection(a, b), Union(a, b));
  }

  /** Boxes that share no column do not overlap. */
  lemma {:induction false} ApartIsZero(a: Box, b: Box)
    requires b.x2 <= a.x1
    ensures Iou(a, b) == 0.0
  {
    var width, height := Common(a.x1, a.x2, b.x1, b.x2), Common(a.y1, a.y2, b.y1, b.y2);
    assert width == 0.0;
    assert width * height == 0.0;
    UnionBounds(a, b);
    ZeroOver(Union(a, b));
  }

  lemma {:induction false} ZeroOver(d: real)
    requires d > 0.0
    ensures 0.0 / d == 0.0
  {
  }

  // ---------------------------------------------------------------------------------------
  // What the overlap is

  datatype Point = Point(x: real, y: real)

  /** Edges included. */
  predicate Inside(p: Point, b: Box) {
    b.x1 <= p.x <= b.x2 && b.y1 <= p.y <= b.y2
  }

  /** Edges excluded. */
  predicate Interior(p: Point, b: Box) {
    b.x1 < p.x < b.x2 && b.y1 < p.y < b.y2
  }

  function Overlap(a: Box, b: Box): Box {
    Box(MaxR(a.x1, b.x1), MaxR(a.y1, b.y1), MinR(a.x2, b.x2), MinR(a.y2, b.y2))
  }

  /** The intersection is the area of the box of exactly the common points. */
  lemma {:induction false} OverlapIsCommon(a: Box, b: Box)
    ensures forall p :: Inside(p, Overlap(a, b)) <==> Inside(p, a) && Inside(p, b)
    ensures forall p :: Interior(p, Overlap(a, b)) <==> Interior(p, a) && Interior(p, b)
    ensures Intersection(a, b) == Area(Overlap(a, b))
  {
  }

  /** The area adds up over cuts, is one for the unit square, the same wherever the box lies
      (`AreaIsPlaceless`), and zero exactly without interior points (`AreaZeroIff`): there is only
      one such measure. */
  lemma {:induction false} AreaAddsUp(b: Box, m: real)
    ensures b.x1 <= m <= b.x2 ==> Area(b) == Area(b.(x2 := m)) + Area(b.(x1 := m))
    ensures b.y1 <= m <= b.y2 ==> Area(b) == Area(b.(y2 := m)) + Area(b.(y1 := m))
    ensures Area(Box(0.0, 0.0, 1.0, 1.0)) == 1.0
  {
    if b.x1 <= m <= b.x2 {
      Distribute(m - b.x1, b.x2 - m, MaxR(0.0, b.y2 - b.y1));
    }
    if b.y1 <= m <= b.y2 {
      Distribute(m - b.y1, b.y2 - m, MaxR(0.0, b.x2 - b.x1));
    }
  }

  lemma {:induction false} AreaIsPlaceless(b: Box, dx: real, dy: real)
    ensures Area(Move(b, dx, dy)) == Area(b) && Area(Flip(b)) == Area(b)
  {
    assert b.x2 + dx - (b.x1 + dx) == b.x2 - b.x1;
    assert b.y2 + dy - (b.y1 + dy) == b.y2 - b.y1;
  }

  lemma {:induction false} AreaZeroIff(b: Box)
    ensures Area(b) >= 0.0 && (Area(b) == 0.0 <==> forall p :: !Interior(p, b))
  {
    Positive(MaxR(0.0, b.x2 - b.x1), MaxR(0.0, b.y2 - b.y1));
    if b.x1 < b.x2 && b.y1 < b.y2 {
      assert Interior(Point((b.x1 + b.x2) / 2.0, (b.y1 + b.y2) / 2.0), b);
    }
  }

  lemma {:induction false} Positive(a: real, b: real)
    requires a >= 0.0 && b >= 0.0
    ensures a * b >= 0.0 && (a * b > 0.0 <==> a > 0.0 && b > 0.0)
  {
  }

  lemma {:induction false} Distribute(a: real, b: real, c: real)
    ensures (a + b) * c == a * c + b * c
  {
  }

  function Move(b: Box, dx: real, dy: real): Box {
    Box(b.x1 + dx, b.y1 + dy, b.x2 + dx, b.y2 + dy)
  }

  function Flip(b: Box): Box {
    Box(b.y1, b.x1, b.y2, b.x2)
  }

  lemma {:induction false} IntersectionIsPlaceless(a: Box, b: Box, dx: real, dy: real)
    ensures Intersection(Move(a, dx, dy), Move(b, dx, dy)) == Intersection(a, b)
  {
    MovedCommon(a.x1, a.x2, b.x1, b.x2, dx);
    MovedCommon(a.y1, a.y2, b.y1, b.y2, dy);
  }

  /** The overlap depends on neither the place nor the names of the axes. */
  lemma {:induction false} IouIsPlaceless(a: Box, b: Box, dx: real, dy: real)
    ensures Iou(Move(a, dx, dy), Move(b, dx, dy)) == Iou(a, b)
  {
    AreaIsPlaceless(a, dx, dy);
    AreaIsPlaceless(b, dx, dy);
    IntersectionIsPlaceless(a, b, dx, dy);
    assert Union(Move(a, dx, dy), Move(b, dx, dy)) == Union(a, b);
  }

  lemma {:induction false} IouIsSymmetric(a: Box, b: Box)
    ensures Iou(Flip(a), Flip(b)) == Iou(a, b) && Iou(b, a) == Iou(a, b)
  {
    AreaIsPlaceless(a, 0.0, 0.0);
    AreaIsPlaceless(b, 0.0, 0.0);
    IntersectionSymmetric(a, b);
    assert Intersection(Flip(a), Flip(b)) == Intersection(a, b);
    assert Union(Flip(a), Flip(b)) == Union(a, b);
  }

  lemma {:induction false} MovedCommon(a1: real, a2: real, b1: real, b2: real, d: real)
    ensures Common(a1 + d, a2 + d, b1 + d, b2 + d) == Common(a1, a2, b1, b2)
  {
  }

  lemma {:induction false} NoCommonInterior(a: Box, b: Box)
    ensures (forall p :: !Interior(p, Overlap(a, b))) <==> forall p :: !(Interior(p, a) && Interior(p, b))
  {
    OverlapIsCommon(a, b);
    forall p
      ensures Interior(p, Overlap(a, b)) <==> Interior(p, a) && Interior(p, b)
    {
    }
  }

  /** Zero exactly if no point is interior to both. */
  lemma {:induction false} IouZeroIff(a: Box, b: Box)
    ensures Iou(a, b) == 0.0 <==> forall p :: !(Interior(p, a) && Interior(p, b))
  {
    OverlapIsCommon(a, b);
    AreaZeroIff(Overlap(a, b));
    NoCommonInterior(a, b);
    UnionBounds(a, b);
    QuotientIsZero(Intersection(a, b), Union(a, b));
  }

  lemma {:induction false} QuotientIsZero(n: real, d: real)
    requires d > 0.0
    ensures n / d == 0.0 <==> n == 0.0
  {
    assert n / d * d == n;
  }

  /** Above the floor of the division, the quotient is that of the common and the joint area. */
  lemma {:induction false} IouIsQuotient(a: Box, b: Box)
    requires Area(a) >= TINY
    ensures Iou(a, b) * (Area(a) + Area(b) - Intersection(a, b)) == Intersection(a, b)
  {
    IntersectionAtMostArea(b, a);
    IntersectionSymmetric(a, b);
    QuotientTimes(Intersection(a, b), Union(a, b));
  }

  lemma {:induction false} QuotientTimes(n: real, d: real)
    requires d > 0.0
    ensures n / d * d == n
  {
  }

  /** One exactly for equal boxes. */
  lemma {:induction false} IouOneIff(a: Box, b: Box)
    requires Area(a) >= TINY && Area(b) >= TINY
    ensures Iou(a, b) == 1.0 <==> a == b
  {
    IntersectionAtMostArea(a, b);
    IntersectionAtMostArea(b, a);
    IntersectionSymmetric(a, b);
    IouIsQuotient(a, b);
    if Iou(a, b) == 1.0 {
      WholeIsInside(a, b);
      WholeIsInside(b, a);
    }
    if a == b {
      QuotientTimes(Intersection(a, b), Union(a, b));
      UnitFactor(Iou(a, b), Area(a));
    }
  }

  lemma {:induction false} UnitFactor(x: real, d: real)
    requires d > 0.0 && x * d == d
    ensures x == 1.0
  {
  }

  /** A box whose whole area is common lies inside the other. */
  lemma {:induction false} WholeIsInside(a: Box, b: Box)
    requires Intersection(a, b) == Area(a) > 0.0
    ensures b.x1 <= a.x1 && a.x2 <= b.x2 && b.y1 <= a.y1 && a.y2 <= b.y2
  {
    var w, h := MaxR(0.0, a.x2 - a.x1), MaxR(0.0, a.y2 - a.y1);
    FullFactors(Common(a.x1, a.x2, b.x1, b.x2), Common(a.y1, a.y2, b.y1, b.y2), w, h);
  }

  lemma {:induction false} FullFactors(w: real, h: real, width: real, height: real)
    requires 0.0 <= w <= width && 0.0 <= h <= height && w * h == width * height > 0.0
    ensures w == width > 0.0 && h == height > 0.0
  {
    Positive(width, height);
    Positive(w, h);
    Positive(width - w, height);
    Positive(w, height - h);
    var right, top := (width - w) * height, w * (height - h);
    assert right == width * height - w * height;
    assert top == w * height - w * h;
    assert right + top == 0.0;
  }
}
