/** Flattening of cubic Bezier curves and Ramer-Douglas-Peucker simplification
    (src/PointsOnCurve/PointsOnCurve.cpp). */
module PointsOnCurve {
  import opened Core

  /** `distanceSq`: the squared Euclidean distance. */
  function DistanceSq(p: Point, q: Point): (r: real)
    ensures r >= 0.0
    ensures r == 0.0 <==> p == q
  {
    assert p == q <==> p.x - q.x == 0.0 && p.y - q.y == 0.0;
    var dx := p.x - q.x;
    var dy := p.y - q.y;
    Sq(dx) + Sq(dy)
  }

  /** `lerp`: the point a fraction `t` of the way from `a` to `b`. */
  function Lerp(a: Point, b: Point, t: real): (r: Point)
    ensures t == 0.0 ==> r == a
    ensures t == 1.0 ==> r == b
  {
    Point(a.x + (b.x - a.x) * t, a.y + (b.y - a.y) * t)
  }

  /** The projection parameter of `p` onto the line through `v` and `w`, clamped to
      [0, 1] as `std::max(0.0, std::min(1.0, t))` does. */
  function SegmentParameter(p: Point, v: Point, w: Point): (t: real)
    requires DistanceSq(v, w) != 0.0
    ensures 0.0 <= t <= 1.0
  {
    Max(0.0, Min(1.0, Dot(v, w, p) / DistanceSq(v, w)))
  }

  /** The dot product (p - v) . (w - v). */
  function Dot(v: Point, w: Point, p: Point): real
  {
    (p.x - v.x) * (w.x - v.x) + (p.y - v.y) * (w.y - v.y)
  }

  /** `distanceToSegmentSq`: the squared distance from `p` to the segment `vw`; a
      zero-length segment falls back to the distance to its point. */
  function DistanceToSegmentSq(p: Point, v: Point, w: Point): (r: real)
    ensures r >= 0.0
    ensures DistanceSq(v, w) == 0.0 ==> r == DistanceSq(p, v)
    ensures DistanceSq(v, w) != 0.0 ==> r == DistanceSq(p, Lerp(v, w, SegmentParameter(p, v, w)))
  {
    var l2 := DistanceSq(v, w);
    if l2 == 0.0 then DistanceSq(p, v)
    else DistanceSq(p, Lerp(v, w, SegmentParameter(p, v, w)))
  }

  /** The squared distance from `p` to the point at parameter `t` of the line `vw`. */
  lemma QuadForm(p: Point, v: Point, w: Point, t: real)
    ensures DistanceSq(p, Lerp(v, w, t)) == DistanceSq(p, v) - 2.0 * t * Dot(v, w, p) + t * t * DistanceSq(v, w)
  {
    var ex, ey, dx, dy := p.x - v.x, p.y - v.y, w.x - v.x, w.y - v.y;
    assert p.x - Lerp(v, w, t).x == ex - t * dx;
    assert p.y - Lerp(v, w, t).y == ey - t * dy;
    SqNegate(dx);
    SqNegate(dy);
    assert v.x - w.x == -dx && v.y - w.y == -dy;
    assert DistanceSq(v, w) == Sq(dx) + Sq(dy);
    QuadFormOfDifferences(ex, ey, dx, dy, t);
  }

  lemma QuadFormOfDifferences(ex: real, ey: real, dx: real, dy: real, t: real)
    ensures Sq(ex - t * dx) + Sq(ey - t * dy)
      == Sq(ex) + Sq(ey) - 2.0 * t * (ex * dx + ey * dy) + t * t * (Sq(dx) + Sq(dy))
  {
    SqExpand(ex, dx, t);
    SqExpand(ey, dy, t);
  }

  lemma SqNegate(a: real)
    ensures Sq(-a) == Sq(a)
  {
  }

  lemma SqExpand(e: real, d: real, t: real)
    ensures Sq(e - t * d) == Sq(e) - 2.0 * t * (e * d) + t * t * Sq(d)
  {
  }

  /** The squared distance along the segment as a quadratic in the parameter. */
  function Quad(e: real, d: real, l: real, x: real): real
  {
    e - 2.0 * x * d + x * x * l
  }

  /** On a segment of non-zero length, the clamped projection is the point of the
      segment nearest to `p`. */
  lemma SegmentDistanceIsNearest(p: Point, v: Point, w: Point, t: real)
    requires DistanceSq(v, w) != 0.0 && 0.0 <= t <= 1.0
    ensures DistanceToSegmentSq(p, v, w) <= DistanceSq(p, Lerp(v, w, t))
  {
    var l, d := DistanceSq(v, w), Dot(v, w, p);
    var s := SegmentParameter(p, v, w);
    QuadForm(p, v, w, t);
    QuadForm(p, v, w, s);
    QuadMin(DistanceSq(p, v), d, l, t);
    assert s == Max(0.0, Min(1.0, d / l));
    assert DistanceSq(p, Lerp(v, w, t)) == Quad(DistanceSq(p, v), d, l, t);
    assert DistanceSq(p, Lerp(v, w, s)) == Quad(DistanceSq(p, v), d, l, s);
  }

  lemma QuadMin(e: real, d: real, l: real, t: real)
    requires l > 0.0 && 0.0 <= t <= 1.0
    ensures Quad(e, d, l, Max(0.0, Min(1.0, d / l))) <= Quad(e, d, l, t)
  {
    var raw := d / l;
    assert d == raw * l;
    if raw < 0.0 {
      QuadBelow(e, l, raw, t);
    } else if raw > 1.0 {
      QuadAbove(e, l, raw, t);
    } else {
      QuadInside(e, l, raw, t);
    }
  }

  lemma QuadBelow(e: real, l: real, raw: real, t: real)
    requires l > 0.0 && raw < 0.0 && 0.0 <= t
    ensures Quad(e, raw * l, l, 0.0) <= Quad(e, raw * l, l, t)
  {
    NonNegProduct(l, t - 2.0 * raw);
    NonNegProduct(t, l * (t - 2.0 * raw));
    assert Quad(e, raw * l, l, t) - Quad(e, raw * l, l, 0.0) == t * (l * (t - 2.0 * raw));
  }

  lemma QuadAbove(e: real, l: real, raw: real, t: real)
    requires l > 0.0 && raw > 1.0 && t <= 1.0
    ensures Quad(e, raw * l, l, 1.0) <= Quad(e, raw * l, l, t)
  {
    NonNegProduct(l, 2.0 * raw - t - 1.0);
    NonNegProduct(1.0 - t, l * (2.0 * raw - t - 1.0));
    assert Quad(e, raw * l, l, t) - Quad(e, raw * l, l, 1.0) == (1.0 - t) * (l * (2.0 * raw - t - 1.0));
  }

  lemma QuadInside(e: real, l: real, raw: real, t: real)
    requires l > 0.0
    ensures Quad(e, raw * l, l, raw) <= Quad(e, raw * l, l, t)
  {
    NonNegProduct(l, Sq(t - raw));
    assert Quad(e, raw * l, l, t) - Quad(e, raw * l, l, raw) == l * Sq(t - raw);
  }

  lemma NonNegProduct(a: real, b: real)
    requires a >= 0.0 && b >= 0.0
    ensures a * b >= 0.0
  {
  }

  // ---------------------------------------------------------------- flatness and subdivision

  /** The four control points of one cubic piece. */
  datatype Piece = Piece(p1: Point, p2: Point, p3: Point, p4: Point)

  function PieceAt(points: seq<Point>, offset: nat): Piece
    requires offset + 3 < |points|
  {
    Piece(points[offset], points[offset + 1], points[offset + 2], points[offset + 3])
  }

  /** `flatness`: max(ux^2, vx^2) + max(uy^2, vy^2) with u = 3 p2 - 2 p1 - p4 and
      v = 3 p3 - 2 p4 - p1, each maximum taken as the source's `if (ux < vx) ux = vx`. */
  function Flatness(c: Piece): (r: real)
    ensures r >= 0.0
  {
    var ux := Sq(3.0 * c.p2.x - 2.0 * c.p1.x - c.p4.x);
    var uy := Sq(3.0 * c.p2.y - 2.0 * c.p1.y - c.p4.y);
    var vx := Sq(3.0 * c.p3.x - 2.0 * c.p4.x - c.p1.x);
    var vy := Sq(3.0 * c.p3.y - 2.0 * c.p4.y - c.p1.y);
    Max(ux, vx) + Max(uy, vy)
  }

  /** The de Casteljau split at t = 0.5: the two halves. */
  function Left(c: Piece): Piece
  {
    var q1 := Lerp(c.p1, c.p2, 0.5);
    var q2 := Lerp(c.p2, c.p3, 0.5);
    var r1 := Lerp(q1, q2, 0.5);
    var r2 := Lerp(q2, Lerp(c.p3, c.p4, 0.5), 0.5);
    Piece(c.p1, q1, r1, Lerp(r1, r2, 0.5))
  }

  function Right(c: Piece): Piece
  {
    var q2 := Lerp(c.p2, c.p3, 0.5);
    var q3 := Lerp(c.p3, c.p4, 0.5);
    var r1 := Lerp(Lerp(c.p1, c.p2, 0.5), q2, 0.5);
    var r2 := Lerp(q2, q3, 0.5);
    Piece(Lerp(r1, r2, 0.5), r2, q3, c.p4)
  }

  /** How far a piece is from a straight, evenly parametrised segment: the squared
      second differences a = p1 - 2 p2 + p3 and b = p2 - 2 p3 + p4. */
  function Wiggle(c: Piece): (r: real)
    ensures r >= 0.0
  {
    Sq(c.p1.x - 2.0 * c.p2.x + c.p3.x) + Sq(c.p1.y - 2.0 * c.p2.y + c.p3.y)
      + Sq(c.p2.x - 2.0 * c.p3.x + c.p4.x) + Sq(c.p2.y - 2.0 * c.p3.y + c.p4.y)
  }

  lemma SquareOfCombination(a: real, b: real)
    ensures Sq(2.0 * a + b) <= 5.0 * (Sq(a) + Sq(b))
    ensures Sq(a + 2.0 * b) <= 5.0 * (Sq(a) + Sq(b))
    ensures Sq(a + b) <= 2.0 * (Sq(a) + Sq(b))
  {
    assert 5.0 * (Sq(a) + Sq(b)) - Sq(2.0 * a + b) == Sq(a - 2.0 * b);
    assert 5.0 * (Sq(a) + Sq(b)) - Sq(a + 2.0 * b) == Sq(2.0 * a - b);
    assert 2.0 * (Sq(a) + Sq(b)) - Sq(a + b) == Sq(a - b);
  }

  /** The flatness measure is at most five times the wiggle. */
  lemma FlatnessBound(c: Piece)
    ensures Flatness(c) <= 5.0 * Wiggle(c)
  {
    var ax, ay := c.p1.x - 2.0 * c.p2.x + c.p3.x, c.p1.y - 2.0 * c.p2.y + c.p3.y;
    var bX, bY := c.p2.x - 2.0 * c.p3.x + c.p4.x, c.p2.y - 2.0 * c.p3.y + c.p4.y;
    assert 3.0 * c.p2.x - 2.0 * c.p1.x - c.p4.x == -(2.0 * ax + bX);
    assert 3.0 * c.p2.y - 2.0 * c.p1.y - c.p4.y == -(2.0 * ay + bY);
    assert 3.0 * c.p3.x - 2.0 * c.p4.x - c.p1.x == -(ax + 2.0 * bX);
    assert 3.0 * c.p3.y - 2.0 * c.p4.y - c.p1.y == -(ay + 2.0 * bY);
    assert Sq(-(2.0 * ax + bX)) == Sq(2.0 * ax + bX) && Sq(-(ax + 2.0 * bX)) == Sq(ax + 2.0 * bX);
    assert Sq(-(2.0 * ay + bY)) == Sq(2.0 * ay + bY) && Sq(-(ay + 2.0 * bY)) == Sq(ay + 2.0 * bY);
    assert Flatness(c) == Max(Sq(2.0 * ax + bX), Sq(ax + 2.0 * bX)) + Max(Sq(2.0 * ay + bY), Sq(ay + 2.0 * bY));
    assert Wiggle(c) == Sq(ax) + Sq(ay) + Sq(bX) + Sq(bY);
    FlatnessOfDifferences(ax, ay, bX, bY);
  }

  /** The flatness bound in terms of the second differences. */
  lemma FlatnessOfDifferences(ax: real, ay: real, bX: real, bY: real)
    ensures Max(Sq(2.0 * ax + bX), Sq(ax + 2.0 * bX)) + Max(Sq(2.0 * ay + bY), Sq(ay + 2.0 * bY))
      <= 5.0 * (Sq(ax) + Sq(ay) + Sq(bX) + Sq(bY))
  {
    SquareOfCombination(ax, bX);
    SquareOfCombination(ay, bY);
  }

  /** Each half of a split has at most 3/32 of the wiggle of the whole: its second
      differences are a/4 and (a + b)/8 (left) or (a + b)/8 and b/4 (right). */
  lemma HalvesShrink(c: Piece)
    ensures Wiggle(Left(c)) <= 3.0 / 32.0 * Wiggle(c)
    ensures Wiggle(Right(c)) <= 3.0 / 32.0 * Wiggle(c)
  {
    var ax, ay := c.p1.x - 2.0 * c.p2.x + c.p3.x, c.p1.y - 2.0 * c.p2.y + c.p3.y;
    var bX, bY := c.p2.x - 2.0 * c.p3.x + c.p4.x, c.p2.y - 2.0 * c.p3.y + c.p4.y;
    var l, r := Left(c), Right(c);
    assert l.p1.x - 2.0 * l.p2.x + l.p3.x == ax / 4.0;
    assert l.p1.y - 2.0 * l.p2.y + l.p3.y == ay / 4.0;
    assert l.p2.x - 2.0 * l.p3.x + l.p4.x == (ax + bX) / 8.0;
    assert l.p2.y - 2.0 * l.p3.y + l.p4.y == (ay + bY) / 8.0;
    assert r.p1.x - 2.0 * r.p2.x + r.p3.x == (ax + bX) / 8.0;
    assert r.p1.y - 2.0 * r.p2.y + r.p3.y == (ay + bY) / 8.0;
    assert r.p2.x - 2.0 * r.p3.x + r.p4.x == bX / 4.0;
    assert r.p2.y - 2.0 * r.p3.y + r.p4.y == bY / 4.0;
    assert Wiggle(c) == Sq(ax) + Sq(ay) + Sq(bX) + Sq(bY);
    assert Wiggle(l) == Sq(ax / 4.0) + Sq(ay / 4.0) + Sq((ax + bX) / 8.0) + Sq((ay + bY) / 8.0);
    assert Wiggle(r) == Sq((ax + bX) / 8.0) + Sq((ay + bY) / 8.0) + Sq(bX / 4.0) + Sq(bY / 4.0);
    LeftHalfBound(ax, ay, bX, bY);
    RightHalfBound(ax, ay, bX, bY);
  }

  /** The left half's wiggle in terms of the whole's second differences. */
  lemma LeftHalfBound(ax: real, ay: real, bX: real, bY: real)
    ensures Sq(ax / 4.0) + Sq(ay / 4.0) + Sq((ax + bX) / 8.0) + Sq((ay + bY) / 8.0)
      <= 3.0 / 32.0 * (Sq(ax) + Sq(ay) + Sq(bX) + Sq(bY))
  {
    SquareOfCombination(ax, bX);
    SquareOfCombination(ay, bY);
    SqQuarter(ax);
    SqQuarter(ay);
    SqEighth(ax + bX);
    SqEighth(ay + bY);
  }

  /** The right half's wiggle in terms of the whole's second differences. */
  lemma RightHalfBound(ax: real, ay: real, bX: real, bY: real)
    ensures Sq((ax + bX) / 8.0) + Sq((ay + bY) / 8.0) + Sq(bX / 4.0) + Sq(bY / 4.0)
      <= 3.0 / 32.0 * (Sq(ax) + Sq(ay) + Sq(bX) + Sq(bY))
  {
    SquareOfCombination(ax, bX);
    SquareOfCombination(ay, bY);
    SqQuarter(bX);
    SqQuarter(bY);
    SqEighth(ax + bX);
    SqEighth(ay + bY);
  }

  lemma DivideOut(x: real, y: real, z: real)
    requires z != 0.0 && x == y * z
    ensures x / z == y
  {
  }

  lemma SqQuarter(a: real)
    ensures Sq(a / 4.0) == Sq(a) / 16.0
  {
    SqScaled(a, 4.0);
    assert Sq(4.0) == 16.0;
  }

  lemma SqEighth(a: real)
    ensures Sq(a / 8.0) == Sq(a) / 64.0
  {
    SqScaled(a, 8.0);
    assert Sq(8.0) == 64.0;
  }

  lemma SqScaled(a: real, k: real)
    requires k > 0.0
    ensures Sq(a / k) == Sq(a) / Sq(k)
  {
    var q := a / k;
    assert q * k == a;
    assert Sq(a) == (q * k) * (q * k) == (q * q) * (k * k);
    assert Sq(a) == Sq(q) * Sq(k);
    DivideOut(Sq(a), Sq(q), Sq(k));
  }


  /** The termination measure of the subdivision: it drops by at least 1 for either
      half of a piece that is not flat enough. */
  lemma SplitMeasureDrops(c: Piece, tolerance: real)
    requires tolerance > 0.0 && Flatness(c) >= tolerance
    ensures 0.0 <= SplitMeasure(Left(c), tolerance) <= SplitMeasure(c, tolerance) - 1.0
    ensures 0.0 <= SplitMeasure(Right(c), tolerance) <= SplitMeasure(c, tolerance) - 1.0
  {
    FlatnessBound(c);
    HalvesShrink(c);
    var w := Wiggle(c);
    assert 5.0 * w >= tolerance;
    assert 29.0 * w >= tolerance;
    assert 32.0 * w - 3.0 * w >= tolerance;
    MeasureStep(Wiggle(Left(c)), w, tolerance);
    MeasureStep(Wiggle(Right(c)), w, tolerance);
  }

  /** The termination measure of the recursive splitting. */
  function SplitMeasure(c: Piece, tolerance: real): real
    requires tolerance > 0.0
  {
    32.0 * Wiggle(c) / tolerance
  }

  lemma MeasureStep(h: real, w: real, tolerance: real)
    requires tolerance > 0.0 && 0.0 <= h <= 3.0 / 32.0 * w && 29.0 * w >= tolerance
    ensures 0.0 <= 32.0 * h / tolerance <= 32.0 * w / tolerance - 1.0
  {
    assert 32.0 * h <= 32.0 * w - tolerance;
    DivideMonotone(0.0, 32.0 * h, tolerance);
    DivideMonotone(32.0 * h, 32.0 * w - tolerance, tolerance);
    assert tolerance / tolerance == 1.0;
    assert (32.0 * w - tolerance) / tolerance == 32.0 * w / tolerance - tolerance / tolerance;
  }

  lemma DivideMonotone(x: real, y: real, t: real)
    requires t > 0.0 && x <= y
    ensures x / t <= y / t
  {
    assert (y - x) / t >= 0.0;
  }

  /** One coordinate of a cubic Bezier at parameter `t`. */
  function Bezier(a: real, b: real, c: real, d: real, t: real): real
  {
    (1.0 - t) * (1.0 - t) * (1.0 - t) * a + 3.0 * (1.0 - t) * (1.0 - t) * t * b
      + 3.0 * (1.0 - t) * t * t * c + t * t * t * d
  }

  function PointAt(c: Piece, t: real): Point
  {
    Point(Bezier(c.p1.x, c.p2.x, c.p3.x, c.p4.x, t), Bezier(c.p1.y, c.p2.y, c.p3.y, c.p4.y, t))
  }

  /** The split is de Casteljau's at t = 0.5: the left half starts at p1, the right
      half ends at p4, they meet at the curve's midpoint, and each half traces its
      half of the original curve. */
  lemma SplitIsDeCasteljau(c: Piece, t: real)
    ensures Left(c).p1 == c.p1 && Right(c).p4 == c.p4
    ensures Left(c).p4 == Right(c).p1 == PointAt(c, 0.5)
    ensures PointAt(Left(c), t) == PointAt(c, t / 2.0)
    ensures PointAt(Right(c), t) == PointAt(c, (1.0 + t) / 2.0)
  {
    HalfBezier(c.p1.x, c.p2.x, c.p3.x, c.p4.x, t);
    HalfBezier(c.p1.y, c.p2.y, c.p3.y, c.p4.y, t);
  }

  /** The power-basis form of one coordinate. */
  lemma PowerBasis(a: real, b: real, c: real, d: real, t: real)
    ensures Bezier(a, b, c, d, t)
      == a + 3.0 * (b - a) * t + 3.0 * (a - 2.0 * b + c) * (t * t) + (d - a + 3.0 * b - 3.0 * c) * (t * t * t)
  {
  }

  /** Running a cubic backwards swaps its control points. */
  lemma Reversed(a: real, b: real, c: real, d: real, t: real)
    ensures Bezier(a, b, c, d, t) == Bezier(d, c, b, a, 1.0 - t)
  {
    assert 1.0 - (1.0 - t) == t;
  }

  lemma LeftHalfBezier(a: real, b: real, c: real, d: real, t: real)
    ensures var q1, q2, q3 := (a + b) / 2.0, (b + c) / 2.0, (c + d) / 2.0;
      var r1 := (q1 + q2) / 2.0;
      var m := (r1 + (q2 + q3) / 2.0) / 2.0;
      Bezier(a, q1, r1, m, t) == Bezier(a, b, c, d, t / 2.0)
  {
    var q1, q2, q3 := (a + b) / 2.0, (b + c) / 2.0, (c + d) / 2.0;
    var r1 := (q1 + q2) / 2.0;
    var m := (r1 + (q2 + q3) / 2.0) / 2.0;
    var s := t / 2.0;
    PowerBasis(a, q1, r1, m, t);
    PowerBasis(a, b, c, d, s);
    assert 3.0 * (q1 - a) == 3.0 * (b - a) / 2.0;
    assert 3.0 * (a - 2.0 * q1 + r1) == 3.0 * (a - 2.0 * b + c) / 4.0;
    assert m - a + 3.0 * q1 - 3.0 * r1 == (d - a + 3.0 * b - 3.0 * c) / 8.0;
    assert s * s == (t * t) / 4.0;
    assert s * s * s == (t * t * t) / 8.0;
  }

  lemma HalfBezier(a: real, b: real, c: real, d: real, t: real)
    ensures var q1, q2, q3 := (a + b) / 2.0, (b + c) / 2.0, (c + d) / 2.0;
      var r1, r2 := (q1 + q2) / 2.0, (q2 + q3) / 2.0;
      var m := (r1 + r2) / 2.0;
      m == Bezier(a, b, c, d, 0.5) &&
      Bezier(a, q1, r1, m, t) == Bezier(a, b, c, d, t / 2.0) &&
      Bezier(m, r2, q3, d, t) == Bezier(a, b, c, d, (1.0 + t) / 2.0)
  {
    var q1, q2, q3 := (a + b) / 2.0, (b + c) / 2.0, (c + d) / 2.0;
    var r1, r2 := (q1 + q2) / 2.0, (q2 + q3) / 2.0;
    var m := (r1 + r2) / 2.0;
    LeftHalfBezier(a, b, c, d, t);
    LeftHalfBezier(a, b, c, d, 1.0);
    LeftHalfBezier(d, c, b, a, 1.0 - t);
    assert (q3 + q2) / 2.0 == r2 && (r2 + r1) / 2.0 == m;
    Reversed(m, r2, q3, d, t);
    Reversed(a, b, c, d, (1.0 + t) / 2.0);
    assert 1.0 - (1.0 + t) / 2.0 == (1.0 - t) / 2.0;
  }

  // ---------------------------------------------------------------- getPointsOnBezierCurveWithSplitting

  /** What a flat piece appends: its start point unless the output already ends
      within distance 1 of it, then its end point. */
  function AppendFlat(acc: seq<Point>, p0: Point, p3: Point): seq<Point>
  {
    (if acc == [] || DistanceSq(acc[|acc| - 1], p0) > 1.0 then acc + [p0] else acc) + [p3]
  }

  /** The points the recursive splitting appends to `acc` for piece `c`. */
  function Flatten(c: Piece, tolerance: real, acc: seq<Point>): (r: seq<Point>)
    requires tolerance > 0.0
    ensures |r| > |acc| && r[..|acc|] == acc
    ensures r[|r| - 1] == c.p4
    ensures acc == [] ==> r[0] == c.p1
    decreases SplitMeasure(c, tolerance)
  {
    if Flatness(c) < tolerance then AppendFlat(acc, c.p1, c.p4)
    else
      SplitMeasureDrops(c, tolerance);
      var l := Flatten(Left(c), tolerance, acc);
      var r := Flatten(Right(c), tolerance, l);
      assert r[..|acc|] == r[..|l|][..|acc|];
      r
  }

  /** `getPointsOnBezierCurveWithSplitting`: the recursion appending into the shared
      `newPoints`, with the piece at `points[offset .. offset + 3]`. */
  method GetPointsOnBezierCurveWithSplitting(points: seq<Point>, offset: nat, tolerance: real, newPoints: seq<Point>)
    returns (outPoints: seq<Point>)
    requires offset + 3 < |points| && tolerance > 0.0
    ensures outPoints == Flatten(PieceAt(points, offset), tolerance, newPoints)
    decreases SplitMeasure(PieceAt(points, offset), tolerance)
  {
    outPoints := newPoints;
    if Flatness(PieceAt(points, offset)) < tolerance {
      var p0 := points[offset];
      if outPoints != [] {
        var d := DistanceSq(outPoints[|outPoints| - 1], p0);
        if d > 1.0 {
          outPoints := outPoints + [p0];
        }
      } else {
        outPoints := outPoints + [p0];
      }
      outPoints := outPoints + [points[offset + 3]];
    } else {
      var t := 0.5;
      var p1, p2, p3, p4 := points[offset], points[offset + 1], points[offset + 2], points[offset + 3];
      var q1 := Lerp(p1, p2, t);
      var q2 := Lerp(p2, p3, t);
      var q3 := Lerp(p3, p4, t);
      var r1 := Lerp(q1, q2, t);
      var r2 := Lerp(q2, q3, t);
      var red := Lerp(r1, r2, t);
      ghost var c := PieceAt(points, offset);
      HalvesOfSplit(c, q1, q2, q3, r1, r2, red);
      SplitMeasureDrops(c, tolerance);
      outPoints := GetPointsOnBezierCurveWithSplitting([p1, q1, r1, red], 0, tolerance, outPoints);
      outPoints := GetPointsOnBezierCurveWithSplitting([red, r2, q3, p4], 0, tolerance, outPoints);
    }
  }

  /** The points de Casteljau's construction at t = 0.5 computes are the
      control points of the two halves. */
  lemma HalvesOfSplit(c: Piece, q1: Point, q2: Point, q3: Point, r1: Point, r2: Point, red: Point)
    requires q1 == Lerp(c.p1, c.p2, 0.5) && q2 == Lerp(c.p2, c.p3, 0.5) && q3 == Lerp(c.p3, c.p4, 0.5)
    requires r1 == Lerp(q1, q2, 0.5) && r2 == Lerp(q2, q3, 0.5) && red == Lerp(r1, r2, 0.5)
    ensures PieceAt([c.p1, q1, r1, red], 0) == Left(c)
    ensures PieceAt([red, r2, q3, c.p4], 0) == Right(c)
  {
  }

  // ---------------------------------------------------------------- simplifyPoints (Ramer-Douglas-Peucker)

  /** The max-search loop of `simplifyPoints` as a recursion on `i`: the first interior
      point strictly farther from the chord `se` than every earlier one. */
  function Scan(points: seq<Point>, s: Point, e: Point, i: nat, end: nat, best: real, bestIdx: nat): (real, nat)
    requires end <= |points|
    decreases end - i
  {
    if i + 1 >= end then (best, bestIdx)
    else
      var d := DistanceToSegmentSq(points[i], s, e);
      if d > best then Scan(points, s, e, i + 1, end, d, i) else Scan(points, s, e, i + 1, end, best, bestIdx)
  }

  /** `maxDistSq` and `maxNdx` after the loop; `maxNdx` starts at 1, not at `start + 1`. */
  function Farthest(points: seq<Point>, start: nat, end: nat): (real, nat)
    requires start < end <= |points|
  {
    Scan(points, points[start], points[end - 1], start + 1, end, 0.0, 1)
  }

  /** The squared distance of the interior point `i` from the chord of `[start, end)`. */
  function ChordDistSq(points: seq<Point>, start: nat, end: nat, i: nat): real
    requires start < end <= |points| && i < |points|
  {
    DistanceToSegmentSq(points[i], points[start], points[end - 1])
  }

  lemma {:induction false} ScanProps(points: seq<Point>, start: nat, end: nat, i: nat, best: real, bestIdx: nat)
    requires start < end <= |points| && start < i
    requires best >= 0.0 && (best == 0.0 ==> bestIdx == 1)
    requires best > 0.0 ==> (start < bestIdx < i && bestIdx + 1 < end &&
      ChordDistSq(points, start, end, bestIdx) == best &&
      forall j | start < j < bestIdx :: ChordDistSq(points, start, end, j) < best)
    requires forall j | start < j < i && j + 1 < end :: ChordDistSq(points, start, end, j) <= best
    ensures var (m, k) := Scan(points, points[start], points[end - 1], i, end, best, bestIdx);
      m >= 0.0 && (m == 0.0 ==> k == 1) &&
      (m > 0.0 ==> (start < k && k + 1 < end && ChordDistSq(points, start, end, k) == m &&
        forall j | start < j < k :: ChordDistSq(points, start, end, j) < m)) &&
      forall j | start < j && j + 1 < end :: ChordDistSq(points, start, end, j) <= m
    decreases end - i
  {
    if i + 1 < end {
      var d := ChordDistSq(points, start, end, i);
      if d > best {
        ScanProps(points, start, end, i + 1, d, i);
      } else {
        ScanProps(points, start, end, i + 1, best, bestIdx);
      }
    }
  }

  /** The max search finds the first interior point at the largest distance from the
      chord; when every interior point is on the chord (or there is none), the distance
      is 0 and the index stays 1. */
  lemma FarthestProps(points: seq<Point>, start: nat, end: nat)
    requires start < end <= |points|
    ensures var (m, k) := Farthest(points, start, end);
      m >= 0.0 && (m == 0.0 ==> k == 1) &&
      (m > 0.0 ==> (start < k && k + 1 < end && ChordDistSq(points, start, end, k) == m &&
        forall j | start < j < k :: ChordDistSq(points, start, end, j) < m)) &&
      forall j | start < j && j + 1 < end :: ChordDistSq(points, start, end, j) <= m
  {
    ScanProps(points, start, end, start + 1, 0.0, 1);
  }

  /** With epsilon >= 0, `sqrt(maxDistSq) > epsilon` is `maxDistSq > epsilon^2`. */
  predicate Splits(points: seq<Point>, start: nat, end: nat, epsilon: real)
    requires start < end <= |points|
  {
    Farthest(points, start, end).0 > epsilon * epsilon
  }

  /** A split only happens at an interior point, so both halves are strictly smaller. */
  lemma SplitShrinks(points: seq<Point>, start: nat, end: nat, epsilon: real)
    requires start < end <= |points| && epsilon >= 0.0 && Splits(points, start, end, epsilon)
    ensures var k := Farthest(points, start, end).1;
      start < k && k + 1 < end && k + 1 - start < end - start && end - k < end - start
  {
    FarthestProps(points, start, end);
  }

  /** What `simplifyPoints(points, start, end, epsilon, newPoints)` leaves in `newPoints`. */
  function Rdp(points: seq<Point>, start: nat, end: nat, epsilon: real, acc: seq<Point>): (r: seq<Point>)
    requires start < end <= |points| && epsilon >= 0.0
    decreases end - start
  {
    if Splits(points, start, end, epsilon) then
      var k := Farthest(points, start, end).1;
      SplitShrinks(points, start, end, epsilon);
      Rdp(points, k, end, epsilon, Rdp(points, start, k + 1, epsilon, acc))
    else
      (if acc == [] then acc + [points[start]] else acc) + [points[end - 1]]
  }

  /** The loop of `simplifyPoints` that searches for the farthest point. */
  method FarthestPoint(points: seq<Point>, start: nat, end: nat) returns (maxDistSq: real, maxNdx: nat)
    requires start < end <= |points|
    ensures (maxDistSq, maxNdx) == Farthest(points, start, end)
  {
    var s := points[start];
    var e := points[end - 1];
    maxDistSq := 0.0;
    maxNdx := 1;
    var i := start + 1;
    while i + 1 < end
      invariant start < i
      invariant Scan(points, s, e, i, end, maxDistSq, maxNdx) == Farthest(points, start, end)
      decreases end - i
    {
      var distSq := DistanceToSegmentSq(points[i], s, e);
      if distSq > maxDistSq {
        maxDistSq := distSq;
        maxNdx := i;
      }
      i := i + 1;
    }
  }

  /** `simplifyPoints` with the shared output list `newPoints`. */
  method SimplifyPoints(points: seq<Point>, start: nat, end: nat, epsilon: real, newPoints: seq<Point>)
    returns (outPoints: seq<Point>)
    requires start < end <= |points| && epsilon >= 0.0
    ensures outPoints == Rdp(points, start, end, epsilon, newPoints)
    decreases end - start
  {
    outPoints := newPoints;
    var s := points[start];
    var e := points[end - 1];
    var maxDistSq, maxNdx := FarthestPoint(points, start, end);
    if maxDistSq > epsilon * epsilon {
      SplitShrinks(points, start, end, epsilon);
      outPoints := SimplifyPoints(points, start, maxNdx + 1, epsilon, outPoints);
      outPoints := SimplifyPoints(points, maxNdx, end, epsilon, outPoints);
    } else {
      if outPoints == [] {
        outPoints := outPoints + [s];
      }
      outPoints := outPoints + [e];
    }
  }

  /** `simplify`. */
  method Simplify(points: seq<Point>, distance: real) returns (r: seq<Point>)
    requires |points| >= 1 && distance >= 0.0
    ensures r == Rdp(points, 0, |points|, distance, [])
  {
    r := SimplifyPoints(points, 0, |points|, distance, []);
  }

  // ---------------------------------------------------------------- what the simplification keeps

  /** The indices of the points `Rdp` keeps from `[start, end)`; after a split the
      farthest point is shared by both halves and is listed once. */
  function RdpIndices(points: seq<Point>, start: nat, end: nat, epsilon: real): (idx: seq<nat>)
    requires start < end <= |points| && epsilon >= 0.0
    ensures |idx| >= 2 && idx[0] == start && idx[|idx| - 1] == end - 1
    ensures forall j | 0 <= j < |idx| :: start <= idx[j] < end
    decreases end - start
  {
    if Splits(points, start, end, epsilon) then
      var k := Farthest(points, start, end).1;
      SplitShrinks(points, start, end, epsilon);
      RdpIndices(points, start, k + 1, epsilon) + RdpIndices(points, k, end, epsilon)[1..]
    else [start, end - 1]
  }

  predicate StrictlyIncreasing(idx: seq<nat>)
  {
    forall i, j | 0 <= i < j < |idx| :: idx[i] < idx[j]
  }

  /** The kept indices of a range of at least two points increase strictly: every
      point is kept at most once and in its original order. */
  lemma {:induction false} RdpIndicesIncrease(points: seq<Point>, start: nat, end: nat, epsilon: real)
    requires start + 1 < end <= |points| && epsilon >= 0.0
    ensures StrictlyIncreasing(RdpIndices(points, start, end, epsilon))
    decreases end - start
  {
    if Splits(points, start, end, epsilon) {
      var k := Farthest(points, start, end).1;
      SplitShrinks(points, start, end, epsilon);
      var l := RdpIndices(points, start, k + 1, epsilon);
      var r := RdpIndices(points, k, end, epsilon);
      RdpIndicesIncrease(points, start, k + 1, epsilon);
      RdpIndicesIncrease(points, k, end, epsilon);
      JoinIncreasing(l, r);
    }
  }

  lemma JoinIncreasing(l: seq<nat>, r: seq<nat>)
    requires |l| >= 1 && |r| >= 1 && l[|l| - 1] == r[0]
    requires StrictlyIncreasing(l) && StrictlyIncreasing(r)
    ensures StrictlyIncreasing(l + r[1..])
  {
    var idx := l + r[1..];
    forall i, j | 0 <= i < j < |idx|
      ensures idx[i] < idx[j]
    {
      if j < |l| {
      } else if i < |l| {
        assert idx[j] == r[j - |l| + 1];
        assert l[i] <= l[|l| - 1] == r[0] < r[j - |l| + 1];
      } else {
        assert idx[i] == r[i - |l| + 1] && idx[j] == r[j - |l| + 1];
      }
    }
  }

  /** The points at the given indices. */
  function Pick(points: seq<Point>, idx: seq<nat>): (r: seq<Point>)
    requires forall j | 0 <= j < |idx| :: idx[j] < |points|
    ensures |r| == |idx| && forall j | 0 <= j < |idx| :: r[j] == points[idx[j]]
  {
    seq(|idx|, j requires 0 <= j < |idx| => points[idx[j]])
  }

  lemma {:induction false} PickAppend(points: seq<Point>, a: seq<nat>, b: seq<nat>)
    requires forall j | 0 <= j < |a| :: a[j] < |points|
    requires forall j | 0 <= j < |b| :: b[j] < |points|
    ensures Pick(points, a + b) == Pick(points, a) + Pick(points, b)
  {
    var ab := a + b;
    assert forall j | 0 <= j < |ab| :: ab[j] < |points| by {
      forall j | 0 <= j < |ab| ensures ab[j] < |points| {
        if j < |a| { assert ab[j] == a[j]; } else { assert ab[j] == b[j - |a|]; }
      }
    }
    var l, r := Pick(points, ab), Pick(points, a) + Pick(points, b);
    assert |l| == |r|;
    forall j | 0 <= j < |l| ensures l[j] == r[j] {
      if j < |a| { assert ab[j] == a[j]; } else { assert ab[j] == b[j - |a|]; }
    }
  }

  /** `Rdp` appends exactly the kept points: all of them to an empty output, all but the
      range's first point (already there) to a non-empty one. */
  lemma {:induction false} RdpPicks(points: seq<Point>, start: nat, end: nat, epsilon: real, acc: seq<Point>)
    requires start < end <= |points| && epsilon >= 0.0
    ensures var idx := RdpIndices(points, start, end, epsilon);
      Rdp(points, start, end, epsilon, acc) == if acc == [] then Pick(points, idx) else acc + Pick(points, idx[1..])
    decreases end - start
  {
    var idx := RdpIndices(points, start, end, epsilon);
    if Splits(points, start, end, epsilon) {
      var k := Farthest(points, start, end).1;
      SplitShrinks(points, start, end, epsilon);
      var l := RdpIndices(points, start, k + 1, epsilon);
      var r := RdpIndices(points, k, end, epsilon);
      assert idx == l + r[1..];
      RdpPicks(points, start, k + 1, epsilon, acc);
      var mid := Rdp(points, start, k + 1, epsilon, acc);
      assert mid != [];
      RdpPicks(points, k, end, epsilon, mid);
      JoinPicks(points, acc, l, r, mid);
    } else {
      assert idx == [start, end - 1];
      assert idx[1..] == [end - 1];
    }
  }

  lemma JoinPicks(points: seq<Point>, acc: seq<Point>, l: seq<nat>, r: seq<nat>, mid: seq<Point>)
    requires |l| >= 1 && |r| >= 1
    requires forall j | 0 <= j < |l| :: l[j] < |points|
    requires forall j | 0 <= j < |r| :: r[j] < |points|
    requires mid == if acc == [] then Pick(points, l) else acc + Pick(points, l[1..])
    ensures var idx := l + r[1..];
      mid + Pick(points, r[1..]) == if acc == [] then Pick(points, idx) else acc + Pick(points, idx[1..])
  {
    var tail := r[1..];
    if acc == [] {
      PickAppend(points, l, tail);
    } else {
      PickAppend(points, l[1..], tail);
      DropFirstOfConcat(l, tail);
      ConcatAssoc(acc, Pick(points, l[1..]), Pick(points, tail));
    }
  }

  /** Dropping the first element of a concatenation with a non-empty left part. */
  lemma DropFirstOfConcat<T>(a: seq<T>, b: seq<T>)
    requires |a| >= 1
    ensures (a + b)[1..] == a[1..] + b
  {
  }

  /** When no interior point is farther than epsilon from the chord, the range
      collapses to its two end points. */
  lemma CloseRangeCollapses(points: seq<Point>, start: nat, end: nat, epsilon: real)
    requires start < end <= |points| && epsilon >= 0.0
    requires forall j | start < j && j + 1 < end :: ChordDistSq(points, start, end, j) <= epsilon * epsilon
    ensures RdpIndices(points, start, end, epsilon) == [start, end - 1]
  {
    FarthestProps(points, start, end);
    var (m, k) := Farthest(points, start, end);
    if m > 0.0 {
      assert ChordDistSq(points, start, end, k) == m;
    }
  }

  /** A range with a point farther than epsilon from its chord keeps that farthest point. */
  lemma FarRangeKeepsFarthest(points: seq<Point>, start: nat, end: nat, epsilon: real, j: nat)
    requires start < j && j + 1 < end <= |points| && epsilon >= 0.0
    requires ChordDistSq(points, start, end, j) > epsilon * epsilon
    ensures Splits(points, start, end, epsilon)
    ensures Farthest(points, start, end).1 in RdpIndices(points, start, end, epsilon)
  {
    FarthestProps(points, start, end);
    var k := Farthest(points, start, end).1;
    SplitShrinks(points, start, end, epsilon);
    var l := RdpIndices(points, start, k + 1, epsilon);
    assert l[|l| - 1] == k;
    assert RdpIndices(points, start, end, epsilon)[|l| - 1] == k;
  }

  /** `simplify` keeps the first and the last point and a strictly increasing
      selection of the points in between. */
  lemma SimplifyKeepsEnds(points: seq<Point>, distance: real)
    requires |points| >= 1 && distance >= 0.0
    ensures var idx := RdpIndices(points, 0, |points|, distance);
      var r := Rdp(points, 0, |points|, distance, []);
      r == Pick(points, idx) && r[0] == points[0] && r[|r| - 1] == points[|points| - 1] &&
      (|points| >= 2 ==> StrictlyIncreasing(idx))
  {
    var idx := RdpIndices(points, 0, |points|, distance);
    var r := Rdp(points, 0, |points|, distance, []);
    RdpPicks(points, 0, |points|, distance, []);
    assert r == Pick(points, idx);
    assert r[0] == points[idx[0]] && r[|r| - 1] == points[idx[|idx| - 1]];
    if |points| >= 2 {
      RdpIndicesIncrease(points, 0, |points|, distance);
    }
  }

  /** With a negative epsilon, as in the source when called so, `sqrt(maxDistSq) >
      epsilon` always holds, and a two-point range splits into itself: `start = 0`,
      `maxNdx = 1` gives the ranges [0, 2) and [1, 2), so the first recursion never ends.
      The model therefore requires epsilon >= 0. */
  lemma NegativeEpsilonRecursesForever(p: Point, q: Point, epsilon: real)
    requires epsilon < 0.0
    ensures var (m, k) := Farthest([p, q], 0, 2);
      m == 0.0 && k == 1 && m >= 0.0 > epsilon && k + 1 == 2
  {
  }

  // ---------------------------------------------------------------- pointsOnBezierCurves

  /** The flattening of the first `n` cubic pieces of `points`, each appended to the
      output of the one before (pieces share their end points). */
  function FlattenPieces(points: seq<Point>, tolerance: real, n: nat): (r: seq<Point>)
    requires tolerance > 0.0 && 3 * n < |points|
    ensures n > 0 ==> |r| >= 2 && r[0] == points[0] && r[|r| - 1] == points[3 * n]
    ensures n == 0 ==> r == []
  {
    if n == 0 then []
    else
      var before := FlattenPieces(points, tolerance, n - 1);
      Flatten(PieceAt(points, 3 * (n - 1)), tolerance, before)
  }

  /** One more piece appends its flattening to the pieces before it. */
  lemma FlattenPiecesStep(points: seq<Point>, tolerance: real, i: nat)
    requires tolerance > 0.0 && 3 * (i + 1) < |points|
    ensures FlattenPieces(points, tolerance, i + 1)
      == Flatten(PieceAt(points, i * 3), tolerance, FlattenPieces(points, tolerance, i))
  {
    assert 3 * (i + 1 - 1) == i * 3;
  }

  /** The number of whole cubic pieces `(size - 1) / 3`. */
  function PieceCount(points: seq<Point>): nat
    requires |points| >= 1
  {
    (|points| - 1) / 3
  }

  /** The result of `pointsOnBezierCurves`. */
  function PointsOnBezier(points: seq<Point>, tolerance: real, distance: real): seq<Point>
    requires |points| >= 1 && tolerance > 0.0 && (distance > 0.0 ==> |points| >= 4)
  {
    var flat := FlattenPieces(points, tolerance, PieceCount(points));
    if distance != 0.0 && distance > 0.0 then Rdp(flat, 0, |flat|, distance, []) else flat
  }

  /** `pointsOnBezierCurves`. The empty input is excluded because `size() - 1` wraps
      around; a positive `distance` needs at least one piece, since `simplifyPoints`
      reads `points[0]`. */
  method PointsOnBezierCurves(points: seq<Point>, tolerance: real, distance: real) returns (r: seq<Point>)
    requires |points| >= 1 && tolerance > 0.0 && (distance > 0.0 ==> |points| >= 4)
    ensures r == PointsOnBezier(points, tolerance, distance)
  {
    var newPoints: seq<Point> := [];
    var numSegments := (|points| - 1) / 3;
    var i := 0;
    while i < numSegments
      invariant i <= numSegments
      invariant newPoints == FlattenPieces(points, tolerance, i)
    {
      var offset := i * 3;
      FlattenPiecesStep(points, tolerance, i);
      newPoints := GetPointsOnBezierCurveWithSplitting(points, offset, tolerance, newPoints);
      i := i + 1;
    }
    if distance != 0.0 && distance > 0.0 {
      r := SimplifyPoints(newPoints, 0, |newPoints|, distance, []);
      return;
    }
    r := newPoints;
  }

  /** The flattened curve starts at the first control point and ends at the last
      point of the last whole piece, with or without simplification. */
  lemma PointsOnBezierEnds(points: seq<Point>, tolerance: real, distance: real)
    requires |points| >= 4 && tolerance > 0.0
    ensures var r := PointsOnBezier(points, tolerance, distance);
      |r| >= 2 && r[0] == points[0] && r[|r| - 1] == points[3 * PieceCount(points)]
  {
    var flat := FlattenPieces(points, tolerance, PieceCount(points));
    if distance > 0.0 {
      SimplifyKeepsEnds(flat, distance);
      RdpIndicesIncrease(flat, 0, |flat|, distance);
    }
  }

  /** Every piece's end point is among the flattened points, at the end of that
      piece's share of the output. */
  lemma PieceEndsKept(points: seq<Point>, tolerance: real, m: nat, n: nat)
    requires tolerance > 0.0 && 0 < m <= n && 3 * n < |points|
    ensures var before := FlattenPieces(points, tolerance, m);
      var all := FlattenPieces(points, tolerance, n);
      |before| <= |all| && all[..|before|] == before && all[|before| - 1] == points[3 * m]
    decreases n - m
  {
    if m < n {
      PieceEndsKept(points, tolerance, m, n - 1);
      var before := FlattenPieces(points, tolerance, m);
      var mid := FlattenPieces(points, tolerance, n - 1);
      var all := FlattenPieces(points, tolerance, n);
      assert all[..|mid|] == mid;
      assert all[..|before|] == mid[..|before|];
    }
  }
}
