/** The plane-geometry predicates of src/Geometry.h: orientation of a point
    triple, the on-segment bounding-box test, segment intersection, the
    Cramer-rule intersection of two lines, ray-casting point-in-polygon, and
    line length (as a squared length). */
module Geometry {
  import opened Core

  /** The `val` of `orientation`: a cross product of the turn p -> q -> r. */
  function Cross(p: Point, q: Point, r: Point): real
  {
    (q.y - p.y) * (r.x - q.x) - (q.x - p.x) * (r.y - q.y)
  }

  /** 0 for collinear, 1 for clockwise, 2 for counter-clockwise. */
  function Orientation(p: Point, q: Point, r: Point): (o: int)
    ensures 0 <= o <= 2
    ensures o == 0 <==> Cross(p, q, r) == 0.0
    ensures o == 1 <==> Cross(p, q, r) > 0.0
    ensures o == 2 <==> Cross(p, q, r) < 0.0
  {
    var val := Cross(p, q, r);
    if val == 0.0 then 0 else if val > 0.0 then 1 else 2
  }

  /** The orientation of the same triangle walked the other way round. */
  function Flip(o: int): int
  {
    if o == 1 then 2 else if o == 2 then 1 else o
  }

  /** Walking the triple backwards turns the other way. */
  lemma OrientationReversed(p: Point, q: Point, r: Point)
    ensures Orientation(r, q, p) == Flip(Orientation(p, q, r))
  {
    assert Cross(r, q, p) == -Cross(p, q, r);
  }

  /** Starting the walk at another vertex keeps the turn direction. */
  lemma OrientationCyclic(p: Point, q: Point, r: Point)
    ensures Orientation(q, r, p) == Orientation(p, q, r)
  {
    assert Cross(q, r, p) == Cross(p, q, r);
  }

  /** Every point of the line through p and q is collinear with them. */
  lemma PointsOnLineAreCollinear(p: Point, q: Point, t: real)
    ensures Orientation(p, q, Point(p.x + t * (q.x - p.x), p.y + t * (q.y - p.y))) == 0
  {
    var r := Point(p.x + t * (q.x - p.x), p.y + t * (q.y - p.y));
    assert r.x - q.x == (t - 1.0) * (q.x - p.x);
    assert r.y - q.y == (t - 1.0) * (q.y - p.y);
    assert Cross(p, q, r) == (q.y - p.y) * ((t - 1.0) * (q.x - p.x)) - (q.x - p.x) * ((t - 1.0) * (q.y - p.y));
  }

  /** A triple that repeats an end point is collinear. */
  lemma RepeatedPointIsCollinear(p: Point, q: Point)
    ensures Orientation(p, q, p) == 0 && Orientation(p, q, q) == 0
  {
    assert Cross(p, q, p) == (q.y - p.y) * (p.x - q.x) - (q.x - p.x) * (p.y - q.y);
  }

  /** b lies between a and c, in either order. */
  predicate Between(a: real, b: real, c: real)
  {
    (a <= b <= c) || (c <= b <= a)
  }

  /** `onSegment`: q lies inside the bounding box of the segment p-r. */
  function OnSegment(p: Point, q: Point, r: Point): (b: bool)
    ensures b <==> Between(p.x, q.x, r.x) && Between(p.y, q.y, r.y)
  {
    q.x <= Max(p.x, r.x) && q.x >= Min(p.x, r.x) && q.y <= Max(p.y, r.y) && q.y >= Min(p.y, r.y)
  }

  /** Both end points pass the on-segment test, and the test ignores the
      direction of the segment. */
  lemma OnSegmentEnds(p: Point, q: Point, r: Point)
    ensures OnSegment(p, p, r) && OnSegment(p, r, r)
    ensures OnSegment(p, q, r) == OnSegment(r, q, p)
  {
  }

  /** `doIntersect`: the general-position test (each segment's end points lie on
      different sides of the other) and the four collinear special cases. */
  function DoIntersect(p1: Point, q1: Point, p2: Point, q2: Point): bool
  {
    var o1 := Orientation(p1, q1, p2);
    var o2 := Orientation(p1, q1, q2);
    var o3 := Orientation(p2, q2, p1);
    var o4 := Orientation(p2, q2, q1);
    if o1 != o2 && o3 != o4 then true
    else if o1 == 0 && OnSegment(p1, p2, q1) then true
    else if o2 == 0 && OnSegment(p1, q2, q1) then true
    else if o3 == 0 && OnSegment(p2, p1, q2) then true
    else o4 == 0 && OnSegment(p2, q1, q2)
  }

  /** The test does not depend on which segment comes first. */
  lemma DoIntersectSymmetric(p1: Point, q1: Point, p2: Point, q2: Point)
    ensures DoIntersect(p1, q1, p2, q2) == DoIntersect(p2, q2, p1, q1)
  {
  }

  /** Segments that share an end point intersect. */
  lemma SharedEndpointIntersects(p1: Point, q1: Point, p2: Point, q2: Point)
    requires p2 == p1 || p2 == q1 || q2 == p1 || q2 == q1
    ensures DoIntersect(p1, q1, p2, q2)
  {
    RepeatedPointIsCollinear(p1, q1);
    OnSegmentEnds(p1, p1, q1);
  }

  /** The determinant of the two line equations of `lineIntersection`. */
  function Determinant(a: Point, b: Point, c: Point, d: Point): real
  {
    (b.y - a.y) * (c.x - d.x) - (d.y - c.y) * (a.x - b.x)
  }

  /** `lineIntersection`: the crossing point of the infinite lines a-b and c-d,
      by Cramer's rule; None exactly when the determinant is zero. The point
      is collinear with a, b and with c, d. */
  function LineIntersection(a: Point, b: Point, c: Point, d: Point): (r: Option<Point>)
    ensures r.None? <==> Determinant(a, b, c, d) == 0.0
    ensures r.Some? ==> Orientation(a, b, r.value) == 0 && Orientation(c, d, r.value) == 0
  {
    if Determinant(a, b, c, d) != 0.0 then
      CramerPointOnBothLines(a, b, c, d);
      Some(CramerPoint(a, b, c, d))
    else None
  }

  /** The solution of a1 x + b1 y = c1, a2 x + b2 y = c2, the equations of the
      lines through a, b and through c, d. */
  function CramerPoint(a: Point, b: Point, c: Point, d: Point): Point
    requires Determinant(a, b, c, d) != 0.0
  {
    var a1 := b.y - a.y;
    var b1 := a.x - b.x;
    var c1 := a1 * a.x + b1 * a.y;
    var a2 := d.y - c.y;
    var b2 := c.x - d.x;
    var c2 := a2 * c.x + b2 * c.y;
    var determinant := a1 * b2 - a2 * b1;
    Point((b2 * c1 - b1 * c2) / determinant, (a1 * c2 - a2 * c1) / determinant)
  }

  lemma CramerPointOnBothLines(a: Point, b: Point, c: Point, d: Point)
    requires Determinant(a, b, c, d) != 0.0
    ensures Orientation(a, b, CramerPoint(a, b, c, d)) == 0
    ensures Orientation(c, d, CramerPoint(a, b, c, d)) == 0
  {
    var a1, b1 := b.y - a.y, a.x - b.x;
    var a2, b2 := d.y - c.y, c.x - d.x;
    var c1, c2 := a1 * a.x + b1 * a.y, a2 * c.x + b2 * c.y;
    var det := a1 * b2 - a2 * b1;
    var pt := CramerPoint(a, b, c, d);
    assert pt == Point((b2 * c1 - b1 * c2) / det, (a1 * c2 - a2 * c1) / det);
    CramerSolves(a1, b1, c1, a2, b2, c2);
    OnLineByEquation(a, b, pt);
    OnLineByEquation(c, d, pt);
  }

  /** A point that satisfies the equation of the line a-b is collinear with a and b. */
  lemma OnLineByEquation(a: Point, b: Point, pt: Point)
    requires (b.y - a.y) * pt.x + (a.x - b.x) * pt.y == (b.y - a.y) * a.x + (a.x - b.x) * a.y
    ensures Orientation(a, b, pt) == 0
  {
    CrossIsLineEquation(a, b, pt);
  }

  /** Cramer's rule: the point it computes satisfies both equations. */
  lemma CramerSolves(a1: real, b1: real, c1: real, a2: real, b2: real, c2: real)
    requires a1 * b2 - a2 * b1 != 0.0
    ensures var det := a1 * b2 - a2 * b1;
      var x := (b2 * c1 - b1 * c2) / det;
      var y := (a1 * c2 - a2 * c1) / det;
      a1 * x + b1 * y == c1 && a2 * x + b2 * y == c2
  {
    var det := a1 * b2 - a2 * b1;
    var nx, ny := b2 * c1 - b1 * c2, a1 * c2 - a2 * c1;
    assert a1 * nx + b1 * ny == c1 * det;
    assert a2 * nx + b2 * ny == c2 * det;
    WeightedQuotients(a1, b1, nx, ny, det, c1);
    WeightedQuotients(a2, b2, nx, ny, det, c2);
  }

  /** If k nx + m ny = c det then k (nx / det) + m (ny / det) = c. */
  lemma WeightedQuotients(k: real, m: real, nx: real, ny: real, det: real, c: real)
    requires det != 0.0 && k * nx + m * ny == c * det
    ensures k * (nx / det) + m * (ny / det) == c
  {
    ScaleQuotient(k, nx, det);
    ScaleQuotient(m, ny, det);
    SumOfQuotients(k * nx, m * ny, det);
    DivideOut(c * det, c, det);
  }

  lemma DivideOut(x: real, y: real, z: real)
    requires z != 0.0 && x == y * z
    ensures x / z == y
  {
  }

  lemma ScaleQuotient(k: real, n: real, d: real)
    requires d != 0.0
    ensures k * (n / d) == (k * n) / d
  {
    var q := n / d;
    assert q * d == n;
    assert (k * q) * d == k * n;
  }

  lemma SumOfQuotients(m: real, n: real, d: real)
    requires d != 0.0
    ensures (m / d) + (n / d) == (m + n) / d
  {
  }

  /** The cross product with a third point is the line equation through a and b
      evaluated there, so it vanishes exactly on that line. */
  lemma CrossIsLineEquation(a: Point, b: Point, pt: Point)
    ensures Cross(a, b, pt) == (b.y - a.y) * pt.x + (a.x - b.x) * pt.y - ((b.y - a.y) * a.x + (a.x - b.x) * a.y)
  {
  }

  /** `lineLength`, squared: never negative, and zero only for a degenerate line. */
  function LineLengthSq(line: Line): (r: real)
    ensures r >= 0.0
    ensures r == 0.0 <==> line.a == line.b
  {
    assert line.a == line.b <==> line.a.x - line.b.x == 0.0 && line.a.y - line.b.y == 0.0;
    Sq(line.a.x - line.b.x) + Sq(line.a.y - line.b.y)
  }

  /** The far end of the ray cast to the right: the largest finite double. */
  const FAR_X: real := 1.7976931348623157e308

  /** The ray-casting loop from edge i on, with `count` crossings so far: an
      intersected edge collinear with the point decides at once (inside when
      the point is on it), otherwise the parity of the crossings decides. */
  function ScanEdges(points: seq<Point>, p: Point, extreme: Point, i: nat, count: nat): bool
    requires i <= |points|
    decreases |points| - i
  {
    if i == |points| then count % 2 == 1
    else
      var current := points[i];
      var next := points[(i + 1) % |points|];
      if DoIntersect(current, next, p, extreme) then
        if Orientation(current, p, next) == 0 then OnSegment(current, p, next)
        else ScanEdges(points, p, extreme, i + 1, count + 1)
      else ScanEdges(points, p, extreme, i + 1, count)
  }

  /** What `isPointInPolygon` computes. */
  function PointInPolygon(points: seq<Point>, x: real, y: real): bool
  {
    if |points| < 3 then false else ScanEdges(points, Point(x, y), Point(FAR_X, y), 0, 0)
  }

  /** Fewer than three vertices never contain a point. */
  lemma DegeneratePolygonContainsNothing(points: seq<Point>, x: real, y: real)
    requires |points| < 3
    ensures !PointInPolygon(points, x, y)
  {
  }

  /** Edge i of the polygon, closing back to the first vertex. */
  function Edge(points: seq<Point>, i: nat): Line
    requires i < |points|
  {
    Line(points[i], points[(i + 1) % |points|])
  }

  /** The ray from p to extreme hits edge j, and the edge is collinear with p. */
  predicate Touches(points: seq<Point>, p: Point, extreme: Point, j: nat)
    requires j < |points|
  {
    DoIntersect(Edge(points, j).a, Edge(points, j).b, p, extreme) && Orientation(Edge(points, j).a, p, Edge(points, j).b) == 0
  }

  /** The number of edges from i on that the ray hits. */
  function Crossings(points: seq<Point>, p: Point, extreme: Point, i: nat): (n: nat)
    requires i <= |points|
    ensures n <= |points| - i
    decreases |points| - i
  {
    if i == |points| then 0
    else (if DoIntersect(Edge(points, i).a, Edge(points, i).b, p, extreme) then 1 else 0) + Crossings(points, p, extreme, i + 1)
  }

  /** When no hit edge is collinear with the point, the answer is the parity
      of the number of hit edges. */
  lemma {:induction false} ParityDecides(points: seq<Point>, p: Point, extreme: Point, i: nat, count: nat)
    requires i <= |points|
    requires forall j | i <= j < |points| :: !Touches(points, p, extreme, j)
    ensures ScanEdges(points, p, extreme, i, count) == ((count + Crossings(points, p, extreme, i)) % 2 == 1)
    decreases |points| - i
  {
    if i < |points| {
      var hit := if DoIntersect(Edge(points, i).a, Edge(points, i).b, p, extreme) then 1 else 0;
      ScanEdgesStep(points, p, extreme, i, count);
      ParityDecides(points, p, extreme, i + 1, count + hit);
      assert Crossings(points, p, extreme, i) == hit + Crossings(points, p, extreme, i + 1);
    }
  }

  /** An edge that is not collinear with the point only counts its hit. */
  lemma ScanEdgesStep(points: seq<Point>, p: Point, extreme: Point, i: nat, count: nat)
    requires i < |points| && !Touches(points, p, extreme, i)
    ensures ScanEdges(points, p, extreme, i, count) == ScanEdges(points, p, extreme, i + 1,
      count + if DoIntersect(Edge(points, i).a, Edge(points, i).b, p, extreme) then 1 else 0)
  {
  }

  /** The first hit edge that is collinear with the point decides: inside
      exactly when the point lies on that edge. */
  lemma {:induction false} FirstTouchDecides(points: seq<Point>, p: Point, extreme: Point, i: nat, count: nat, k: nat)
    requires i <= k < |points| && Touches(points, p, extreme, k)
    requires forall j | i <= j < k :: !Touches(points, p, extreme, j)
    ensures ScanEdges(points, p, extreme, i, count) == OnSegment(Edge(points, k).a, p, Edge(points, k).b)
    decreases k - i
  {
    if i < k {
      assert !Touches(points, p, extreme, i);
      if DoIntersect(Edge(points, i).a, Edge(points, i).b, p, extreme) {
        FirstTouchDecides(points, p, extreme, i + 1, count + 1, k);
      } else {
        FirstTouchDecides(points, p, extreme, i + 1, count, k);
      }
    }
  }

  /** `isPointInPolygon`, with its counting loop and early return. */
  method IsPointInPolygon(points: seq<Point>, x: real, y: real) returns (inside: bool)
    ensures inside == PointInPolygon(points, x, y)
  {
    var vertices := |points|;
    if vertices < 3 {
      return false;
    }
    var extreme := Point(FAR_X, y);
    var p := Point(x, y);
    var count: nat := 0;
    for i := 0 to vertices
      invariant PointInPolygon(points, x, y) == ScanEdges(points, p, extreme, i, count)
    {
      var current := points[i];
      var next := points[(i + 1) % vertices];
      if DoIntersect(current, next, p, extreme) {
        if Orientation(current, p, next) == 0 {
          return OnSegment(current, p, next);
        }
        count := count + 1;
      }
    }
    return count % 2 == 1;
  }

  /** The square with corners (0,0), (10,0), (10,10), (0,10). */
  const Corners := [Point(0.0, 0.0), Point(10.0, 0.0), Point(10.0, 10.0), Point(0.0, 10.0)]

  /** Its centre is inside: the ray crosses only the right-hand edge. */
  lemma SquareContainsCentre()
    ensures PointInPolygon(Corners, 5.0, 5.0)
  {
    var p, e := Point(5.0, 5.0), Point(FAR_X, 5.0);
    assert !DoIntersect(Corners[0], Corners[1], p, e);
    assert DoIntersect(Corners[1], Corners[2], p, e) && Orientation(Corners[1], p, Corners[2]) != 0;
    assert !DoIntersect(Corners[2], Corners[3], p, e);
    assert !DoIntersect(Corners[3], Corners[0], p, e);
    assert ScanEdges(Corners, p, e, 4, 1);
    assert ScanEdges(Corners, p, e, 3, 1);
    assert ScanEdges(Corners, p, e, 2, 1);
    assert ScanEdges(Corners, p, e, 1, 0);
  }

  /** A segment is hit when the other segment's start is collinear with it and
      inside its bounding box. */
  lemma CollinearStartHits(p1: Point, q1: Point, p2: Point, q2: Point)
    requires Orientation(p1, q1, p2) == 0 && OnSegment(p1, p2, q1)
    ensures DoIntersect(p1, q1, p2, q2)
  {
  }

  /** A rightward ray that starts on a horizontal edge hits that edge, and the
      edge is collinear with the ray's start. */
  lemma RayAlongEdge(a: Point, b: Point, p: Point, extreme: Point)
    requires a.y == b.y == p.y && Between(a.x, p.x, b.x)
    ensures DoIntersect(a, b, p, extreme) && Orientation(a, p, b) == 0
  {
    assert Cross(a, b, p) == (b.y - a.y) * (p.x - b.x) - (b.x - a.x) * (p.y - b.y);
    assert Cross(a, p, b) == (p.y - a.y) * (b.x - p.x) - (p.x - a.x) * (b.y - p.y);
    CollinearStartHits(a, b, p, extreme);
  }

  /** A point on a horizontal first edge of a polygon counts as inside. */
  lemma OnHorizontalFirstEdge(points: seq<Point>, x: real, y: real)
    requires |points| >= 3 && points[0].y == y && points[1].y == y
    requires Between(points[0].x, x, points[1].x)
    ensures PointInPolygon(points, x, y)
  {
    var p, e := Point(x, y), Point(FAR_X, y);
    assert Edge(points, 0) == Line(points[0], points[1]);
    RayAlongEdge(points[0], points[1], p, e);
    FirstTouchDecides(points, p, e, 0, 0, 0);
  }

  /** Every point of the bottom edge of the square counts as inside. */
  lemma SquareContainsBottomEdge(x: real)
    requires 0.0 <= x <= 10.0
    ensures PointInPolygon(Corners, x, 0.0)
  {
    OnHorizontalFirstEdge(Corners, x, 0.0);
  }

  /** In particular (5,0) is inside. */
  lemma SquareContainsEdgePoint()
    ensures PointInPolygon(Corners, 5.0, 0.0)
  {
    SquareContainsBottomEdge(5.0);
  }

  /** A point to the right of the square is outside: the ray hits no edge. */
  lemma SquareExcludesRightPoint()
    ensures !PointInPolygon(Corners, 15.0, 5.0)
  {
    var p, e := Point(15.0, 5.0), Point(FAR_X, 5.0);
    assert !DoIntersect(Corners[0], Corners[1], p, e);
    assert !DoIntersect(Corners[1], Corners[2], p, e);
    assert !DoIntersect(Corners[2], Corners[3], p, e);
    assert !DoIntersect(Corners[3], Corners[0], p, e);
    assert !ScanEdges(Corners, p, e, 4, 0);
    assert !ScanEdges(Corners, p, e, 3, 0);
    assert !ScanEdges(Corners, p, e, 2, 0);
    assert !ScanEdges(Corners, p, e, 1, 0);
  }
}
