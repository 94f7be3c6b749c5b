/** From path data to point sets (src/PointsOnPath/PointsOnPath.cpp): parse,
    absolutize and normalize, then walk the M/L/C/Z segments, batching consecutive
    cubics into one pending control list that is flattened when something else
    interrupts it. */
module PointsOnPath {
  import opened Core
  import opened Parser
  import opened Absolutize
  import opened Normalize
  import opened PointsOnCurve

  /** The loop variables `sets`, `currentPoints`, `start` and `pendingCurve`. */
  datatype Walk = Walk(sets: seq<seq<Point>>, current: seq<Point>, start: Point, pending: seq<Point>)

  const Fresh := Walk([], [], Point(0.0, 0.0), [])

  /** What the walk keeps true: a pending curve is empty or holds 1 + 3k points, and
      no finished set is empty. */
  predicate Tidy(w: Walk)
  {
    (w.pending == [] || |w.pending| % 3 == 1) && forall i | 0 <= i < |w.sets| :: w.sets[i] != []
  }

  /** The points a pending curve contributes when it is flushed. */
  function CurvePoints(pending: seq<Point>, tolerance: real): seq<Point>
    requires tolerance > 0.0
  {
    if |pending| >= 4 then PointsOnBezier(pending, tolerance, 0.0) else []
  }

  /** `appendPendingCurve`. */
  function FlushCurve(w: Walk, tolerance: real): Walk
    requires tolerance > 0.0
  {
    w.(current := w.current + CurvePoints(w.pending, tolerance), pending := [])
  }

  /** `appendPendingPoints`. */
  function FlushPoints(w: Walk, tolerance: real): Walk
    requires tolerance > 0.0
  {
    var w1 := FlushCurve(w, tolerance);
    if w1.current != [] then w1.(sets := w1.sets + [w1.current], current := []) else w1
  }

  /** One iteration of the segment loop. */
  function Visit(w: Walk, seg: Segment, tolerance: real): Walk
    requires WellFormed(seg) && tolerance > 0.0
  {
    var d := seg.data;
    match seg.key
    case 'M' =>
      var w1 := FlushPoints(w, tolerance);
      w1.(start := Point(d[0], d[1]), current := w1.current + [Point(d[0], d[1])])
    case 'L' =>
      var w1 := FlushCurve(w, tolerance);
      w1.(current := w1.current + [Point(d[0], d[1])])
    case 'C' =>
      var seed := if w.pending == [] then [if w.current != [] then w.current[|w.current| - 1] else w.start] else [];
      w.(pending := w.pending + seed + [Point(d[0], d[1]), Point(d[2], d[3]), Point(d[4], d[5])])
    case 'Z' =>
      var w1 := FlushCurve(w, tolerance);
      w1.(current := w1.current + [w1.start])
    case _ => w
  }

  function WalkFrom(w: Walk, segs: seq<Segment>, tolerance: real): Walk
    requires AllWellFormed(segs) && tolerance > 0.0
    decreases |segs|
  {
    if segs == [] then w else WalkFrom(Visit(w, segs[0], tolerance), segs[1..], tolerance)
  }

  /** The sets after the loop and the final `appendPendingPoints`. */
  function Sets(segs: seq<Segment>, tolerance: real): seq<seq<Point>>
    requires AllWellFormed(segs) && tolerance > 0.0
  {
    FlushPoints(WalkFrom(Fresh, segs, tolerance), tolerance).sets
  }

  /** The simplified sets, skipping any that come out empty. */
  function SimplifyAll(sets: seq<seq<Point>>, distance: real): seq<seq<Point>>
    requires distance >= 0.0 && forall i | 0 <= i < |sets| :: sets[i] != []
  {
    if sets == [] then []
    else
      var last := sets[|sets| - 1];
      var s := Rdp(last, 0, |last|, distance, []);
      SimplifyAll(sets[..|sets| - 1], distance) + (if s != [] then [s] else [])
  }

  /** What `pointsOnPath` returns (a parse error propagates as the source's exception). */
  function PointsOnPathSpec(d: string, tolerance: real, distance: real, arc: ArcToCubics): Result<seq<seq<Point>>>
    requires tolerance > 0.0 && distance >= 0.0
  {
    match ParsePathSpec(d)
    case Err(e) => Err(e)
    case Ok(segments) =>
      ParsedWellFormed(d);
      var normalized := Normalized(Absolutized(segments), arc);
      var sets := Sets(normalized, tolerance);
      SetsAreNonEmpty(normalized, tolerance);
      if distance == 0.0 then Ok(sets) else Ok(SimplifyAll(sets, distance))
  }

  lemma ParsedWellFormed(d: string)
    requires ParsePathSpec(d).Ok?
    ensures AllWellFormed(ParsePathSpec(d).value)
    ensures AllWellFormed(Absolutized(ParsePathSpec(d).value))
  {
    ParsedSegmentsHaveArity(d);
    var segs := ParsePathSpec(d).value;
    forall i | 0 <= i < |segs| ensures WellFormed(segs[i]) {
      ArityIsParamsCount(segs[i].key);
    }
  }

  // ---------------------------------------------------------------- the imperative walk

  /** The `appendPendingCurve` lambda. */
  method AppendPendingCurve(w: Walk, tolerance: real) returns (w': Walk)
    requires tolerance > 0.0
    ensures w' == FlushCurve(w, tolerance)
  {
    w' := w;
    if |w.pending| >= 4 {
      var pendingCurvePoints := PointsOnBezierCurves(w.pending, tolerance, 0.0);
      w' := w'.(current := w'.current + pendingCurvePoints);
    }
    w' := w'.(pending := []);
  }

  /** The `appendPendingPoints` lambda. */
  method AppendPendingPoints(w: Walk, tolerance: real) returns (w': Walk)
    requires tolerance > 0.0
    ensures w' == FlushPoints(w, tolerance)
  {
    w' := AppendPendingCurve(w, tolerance);
    if w'.current != [] {
      w' := w'.(sets := w'.sets + [w'.current], current := []);
    }
  }

  /** The body of the segment loop. */
  method VisitSegment(w: Walk, segment: Segment, tolerance: real) returns (w': Walk)
    requires WellFormed(segment) && tolerance > 0.0
    ensures w' == Visit(w, segment, tolerance)
  {
    match segment.key {
      case 'M' => w' := VisitMove(w, segment, tolerance);
      case 'L' => w' := VisitLine(w, segment, tolerance);
      case 'C' => w' := VisitCurve(w, segment, tolerance);
      case 'Z' => w' := VisitClose(w, segment, tolerance);
      case _ => w' := w;
    }
  }

  /** `M`: flush what is pending and start a new point set at the target. */
  method VisitMove(w: Walk, segment: Segment, tolerance: real) returns (w': Walk)
    requires WellFormed(segment) && segment.key == 'M' && tolerance > 0.0
    ensures w' == Visit(w, segment, tolerance)
  {
    var d := segment.data;
    w' := AppendPendingPoints(w, tolerance);
    w' := w'.(start := Point(d[0], d[1]));
    w' := w'.(current := w'.current + [w'.start]);
  }

  /** `L`: flush a pending curve and add the target to the current set. */
  method VisitLine(w: Walk, segment: Segment, tolerance: real) returns (w': Walk)
    requires WellFormed(segment) && segment.key == 'L' && tolerance > 0.0
    ensures w' == Visit(w, segment, tolerance)
  {
    var d := segment.data;
    w' := AppendPendingCurve(w, tolerance);
    w' := w'.(current := w'.current + [Point(d[0], d[1])]);
  }

  /** `C`: queue the three control points, seeded with the last point when
      nothing is pending. */
  method VisitCurve(w: Walk, segment: Segment, tolerance: real) returns (w': Walk)
    requires WellFormed(segment) && segment.key == 'C' && tolerance > 0.0
    ensures w' == Visit(w, segment, tolerance)
  {
    var d := segment.data;
    w' := w;
    ghost var seed: seq<Point> := [];
    if w'.pending == [] {
      var lastPoint := if |w'.current| > 0 then w'.current[|w'.current| - 1] else w'.start;
      w' := w'.(pending := w'.pending + [lastPoint]);
      seed := [lastPoint];
    }
    assert w'.pending == w.pending + seed;
    w' := w'.(pending := w'.pending + [Point(d[0], d[1])]);
    w' := w'.(pending := w'.pending + [Point(d[2], d[3])]);
    w' := w'.(pending := w'.pending + [Point(d[4], d[5])]);
    ConcatAssoc(w.pending + seed, [Point(d[0], d[1])], [Point(d[2], d[3])]);
    ConcatAssoc(w.pending + seed, [Point(d[0], d[1])] + [Point(d[2], d[3])], [Point(d[4], d[5])]);
  }

  /** `Z`: flush a pending curve and return to the start of the set. */
  method VisitClose(w: Walk, segment: Segment, tolerance: real) returns (w': Walk)
    requires WellFormed(segment) && segment.key == 'Z' && tolerance > 0.0
    ensures w' == Visit(w, segment, tolerance)
  {
    w' := AppendPendingCurve(w, tolerance);
    w' := w'.(current := w'.current + [w'.start]);
  }

  /** `pointsOnPath`. */
  method PointsOnPath(path: string, tolerance: real, distance: real, arc: ArcToCubics)
    returns (r: Result<seq<seq<Point>>>)
    requires tolerance > 0.0 && distance >= 0.0
    ensures r == PointsOnPathSpec(path, tolerance, distance, arc)
  {
    var parsed := ParsePath(path);
    if parsed.Err? {
      return Err(parsed.error);
    }
    ParsedWellFormed(path);
    var absolute := AbsolutizePath(parsed.value);
    var normalized := NormalizePath(absolute, arc);
    var sets := WalkSegments(normalized, tolerance);
    SetsAreNonEmpty(normalized, tolerance);
    if distance == 0.0 {
      return Ok(sets);
    }
    var out := SimplifySets(sets, distance);
    r := Ok(out);
  }

  /** The segment loop of `pointsOnPath` and the final `appendPendingPoints`. */
  method WalkSegments(normalized: seq<Segment>, tolerance: real) returns (sets: seq<seq<Point>>)
    requires AllWellFormed(normalized) && tolerance > 0.0
    ensures sets == Sets(normalized, tolerance)
  {
    var w := Fresh;
    var i := 0;
    while i < |normalized|
      invariant i <= |normalized|
      invariant WalkFrom(Fresh, normalized, tolerance) == WalkFrom(w, normalized[i..], tolerance)
    {
      ghost var rest := normalized[i..];
      w := VisitSegment(w, normalized[i], tolerance);
      i := i + 1;
      assert normalized[i..] == rest[1..];
    }
    w := AppendPendingPoints(w, tolerance);
    sets := w.sets;
  }

  /** The simplification loop of `pointsOnPath`, for a non-zero distance. */
  method SimplifySets(sets: seq<seq<Point>>, distance: real) returns (out: seq<seq<Point>>)
    requires distance >= 0.0 && forall i | 0 <= i < |sets| :: sets[i] != []
    ensures out == SimplifyAll(sets, distance)
  {
    out := [];
    var k := 0;
    while k < |sets|
      invariant k <= |sets|
      invariant out == SimplifyAll(sets[..k], distance)
    {
      var simplifiedSet := Simplify(sets[k], distance);
      assert sets[..k + 1][..k] == sets[..k];
      if simplifiedSet != [] {
        out := out + [simplifiedSet];
      }
      k := k + 1;
    }
    assert sets[..k] == sets;
  }

  // ---------------------------------------------------------------- properties

  lemma FlushKeepsTidy(w: Walk, tolerance: real)
    requires Tidy(w) && tolerance > 0.0
    ensures Tidy(FlushCurve(w, tolerance)) && Tidy(FlushPoints(w, tolerance))
    ensures FlushPoints(w, tolerance).current == []
  {
  }

  lemma VisitKeepsTidy(w: Walk, seg: Segment, tolerance: real)
    requires Tidy(w) && WellFormed(seg) && tolerance > 0.0
    ensures Tidy(Visit(w, seg, tolerance))
  {
    FlushKeepsTidy(w, tolerance);
  }

  lemma {:induction false} WalkKeepsTidy(w: Walk, segs: seq<Segment>, tolerance: real)
    requires Tidy(w) && AllWellFormed(segs) && tolerance > 0.0
    ensures Tidy(WalkFrom(w, segs, tolerance))
    decreases |segs|
  {
    if segs != [] {
      VisitKeepsTidy(w, segs[0], tolerance);
      WalkKeepsTidy(Visit(w, segs[0], tolerance), segs[1..], tolerance);
    }
  }

  /** No returned set is empty. */
  lemma SetsAreNonEmpty(segs: seq<Segment>, tolerance: real)
    requires AllWellFormed(segs) && tolerance > 0.0
    ensures forall i | 0 <= i < |Sets(segs, tolerance)| :: Sets(segs, tolerance)[i] != []
  {
    WalkKeepsTidy(Fresh, segs, tolerance);
    FlushKeepsTidy(WalkFrom(Fresh, segs, tolerance), tolerance);
  }

  /** Flushing always clears the pending curve; it adds points only for a curve of at
      least four points, and then they run from the curve's first control point to its last. */
  lemma FlushCurveClears(w: Walk, tolerance: real)
    requires Tidy(w) && tolerance > 0.0
    ensures var w' := FlushCurve(w, tolerance);
      w'.pending == [] && w'.sets == w.sets && w'.start == w.start &&
      (|w.pending| < 4 ==> w'.current == w.current) &&
      (|w.pending| >= 4 ==> exists pts: seq<Point> ::
        w'.current == w.current + pts && |pts| >= 2 &&
        pts[0] == w.pending[0] && pts[|pts| - 1] == w.pending[|w.pending| - 1])
  {
    if |w.pending| >= 4 {
      var pts := PointsOnBezier(w.pending, tolerance, 0.0);
      PointsOnBezierEnds(w.pending, tolerance, 0.0);
      assert 3 * PieceCount(w.pending) == |w.pending| - 1;
      assert FlushCurve(w, tolerance).current == w.current + pts;
    }
  }

  /** A move finishes the current subpath, pending curve included, and starts a new
      one holding just the move point. */
  lemma MoveStartsSubpath(w: Walk, seg: Segment, tolerance: real)
    requires seg.key == 'M' && WellFormed(seg) && tolerance > 0.0
    ensures var w' := Visit(w, seg, tolerance);
      var finished := w.current + CurvePoints(w.pending, tolerance);
      w'.sets == (if finished != [] then w.sets + [finished] else w.sets) &&
      w'.start == Point(seg.data[0], seg.data[1]) && w'.current == [w'.start] && w'.pending == []
  {
  }

  /** A line flushes the pending curve and then appends its end point. */
  lemma LineAppendsEndPoint(w: Walk, seg: Segment, tolerance: real)
    requires seg.key == 'L' && WellFormed(seg) && tolerance > 0.0
    ensures var w' := Visit(w, seg, tolerance);
      w'.current == w.current + CurvePoints(w.pending, tolerance) + [Point(seg.data[0], seg.data[1])] &&
      w'.pending == [] && w'.sets == w.sets && w'.start == w.start
  {
  }

  /** A cubic extends the pending control list by its three points; an empty list is
      first seeded with the last point of the subpath, or its start when it has none.
      The list keeps a length of 1 + 3k, and nothing else changes. */
  lemma CubicExtendsPending(w: Walk, seg: Segment, tolerance: real)
    requires seg.key == 'C' && WellFormed(seg) && Tidy(w) && tolerance > 0.0
    ensures var w' := Visit(w, seg, tolerance);
      var d := seg.data;
      var seed := if w.current != [] then w.current[|w.current| - 1] else w.start;
      w'.pending == (if w.pending == [] then [seed] else w.pending) + [Point(d[0], d[1]), Point(d[2], d[3]), Point(d[4], d[5])] &&
      |w'.pending| % 3 == 1 && |w'.pending| >= 4 &&
      w'.current == w.current && w'.sets == w.sets && w'.start == w.start
  {
  }

  /** A close flushes the pending curve and appends the subpath start point. */
  lemma CloseAppendsStart(w: Walk, seg: Segment, tolerance: real)
    requires seg.key == 'Z' && WellFormed(seg) && tolerance > 0.0
    ensures var w' := Visit(w, seg, tolerance);
      w'.current == w.current + CurvePoints(w.pending, tolerance) + [w.start] &&
      w'.pending == [] && w'.sets == w.sets && w'.start == w.start
  {
  }

  /** Simplification never drops a set and keeps each set's first and last point. */
  lemma {:induction false} SimplifyAllKeepsEnds(sets: seq<seq<Point>>, distance: real)
    requires distance >= 0.0 && forall i | 0 <= i < |sets| :: sets[i] != []
    ensures var out := SimplifyAll(sets, distance);
      |out| == |sets| && forall i | 0 <= i < |sets| ::
        out[i] != [] && out[i][0] == sets[i][0] && out[i][|out[i]| - 1] == sets[i][|sets[i]| - 1]
    decreases |sets|
  {
    if sets != [] {
      var init := sets[..|sets| - 1];
      var last := sets[|sets| - 1];
      SimplifyAllKeepsEnds(init, distance);
      SimplifiedEnds(last, distance);
      var out := SimplifyAll(sets, distance);
      assert out == SimplifyAll(init, distance) + [Rdp(last, 0, |last|, distance, [])];
      forall i | 0 <= i < |sets|
        ensures out[i] != [] && out[i][0] == sets[i][0] && out[i][|out[i]| - 1] == sets[i][|sets[i]| - 1]
      {
        if i < |init| {
          assert out[i] == SimplifyAll(init, distance)[i] && sets[i] == init[i];
        }
      }
    }
  }

  /** Simplifying one non-empty set keeps it non-empty, with both its ends. */
  lemma SimplifiedEnds(points: seq<Point>, distance: real)
    requires |points| >= 1 && distance >= 0.0
    ensures var r := Rdp(points, 0, |points|, distance, []);
      r != [] && r[0] == points[0] && r[|r| - 1] == points[|points| - 1]
  {
    SimplifyKeepsEnds(points, distance);
  }

  const SquareSegments := [Segment('M', [0.0, 0.0]), Segment('L', [10.0, 0.0]), Segment('L', [10.0, 10.0]),
    Segment('L', [0.0, 10.0]), Segment('Z', [])]

  /** A run of lines and closes with nothing else interleaved. */
  predicate Polyline(segs: seq<Segment>)
  {
    forall i | 0 <= i < |segs| :: segs[i].key in {'L', 'Z'} && WellFormed(segs[i])
  }

  /** The point a line (its end point) or a close (the subpath start) adds. */
  function Vertex(start: Point, seg: Segment): Point
    requires seg.key in {'L', 'Z'} && WellFormed(seg)
  {
    if seg.key == 'L' then Point(seg.data[0], seg.data[1]) else start
  }

  /** The points such a run adds to its subpath, in order. */
  function Vertices(start: Point, segs: seq<Segment>): (ps: seq<Point>)
    requires Polyline(segs)
    ensures |ps| == |segs|
    ensures forall i | 0 <= i < |segs| :: ps[i] == Vertex(start, segs[i])
    decreases |segs|
  {
    if segs == [] then []
    else
      PolylineTail(segs);
      [Vertex(start, segs[0])] + Vertices(start, segs[1..])
  }

  /** With no curve pending, lines and closes only extend the current subpath by
      their vertices, in order. */
  lemma {:induction false} PolylineWalk(w: Walk, segs: seq<Segment>, tolerance: real)
    requires Polyline(segs) && AllWellFormed(segs) && w.pending == [] && tolerance > 0.0
    ensures WalkFrom(w, segs, tolerance) == w.(current := w.current + Vertices(w.start, segs))
    decreases |segs|
  {
    if segs == [] {
      assert w.current + Vertices(w.start, segs) == w.current;
    } else {
      PolylineTail(segs);
      var w1 := w.(current := w.current + [Vertex(w.start, segs[0])]);
      calc {
        WalkFrom(w, segs, tolerance);
      == { PolylineStep(w, segs, tolerance); }
        WalkFrom(w1, segs[1..], tolerance);
      == { PolylineWalk(w1, segs[1..], tolerance); }
        w1.(current := w1.current + Vertices(w.start, segs[1..]));
      == { VerticesCons(w.start, segs, w.current); }
        w.(current := w.current + Vertices(w.start, segs));
      }
    }
  }

  lemma VerticesCons(start: Point, segs: seq<Segment>, prefix: seq<Point>)
    requires Polyline(segs) && segs != []
    ensures Polyline(segs[1..])
    ensures prefix + [Vertex(start, segs[0])] + Vertices(start, segs[1..]) == prefix + Vertices(start, segs)
  {
    PolylineTail(segs);
    assert Vertices(start, segs) == [Vertex(start, segs[0])] + Vertices(start, segs[1..]);
    ConcatAssoc(prefix, [Vertex(start, segs[0])], Vertices(start, segs[1..]));
  }

  lemma PolylineWellFormed(segs: seq<Segment>)
    requires Polyline(segs)
    ensures AllWellFormed(segs)
  {
  }

  lemma PolylineStep(w: Walk, segs: seq<Segment>, tolerance: real)
    requires Polyline(segs) && segs != [] && w.pending == [] && tolerance > 0.0
    ensures AllWellFormed(segs[1..])
    ensures WalkFrom(w, segs, tolerance) == WalkFrom(w.(current := w.current + [Vertex(w.start, segs[0])]), segs[1..], tolerance)
  {
    PolylineTail(segs);
    PolylineWellFormed(segs[1..]);
    VisitVertex(w, segs[0], tolerance);
    WalkStep(w, segs, tolerance);
  }

  lemma PolylineTail(segs: seq<Segment>)
    requires Polyline(segs) && segs != []
    ensures Polyline(segs[1..]) && segs[0].key in {'L', 'Z'} && WellFormed(segs[0])
  {
    forall k | 0 <= k < |segs| - 1 ensures segs[1..][k] == segs[k + 1] { }
  }

  lemma WalkStep(w: Walk, segs: seq<Segment>, tolerance: real)
    requires segs != [] && tolerance > 0.0
    requires AllWellFormed(segs[1..]) && WellFormed(segs[0])
    ensures AllWellFormed(segs)
    ensures WalkFrom(w, segs, tolerance) == WalkFrom(Visit(w, segs[0], tolerance), segs[1..], tolerance)
  {
    forall k | 0 <= k < |segs| ensures WellFormed(segs[k]) {
      if k > 0 { assert segs[k] == segs[1..][k - 1]; }
    }
  }

  /** With no curve pending, one line or close adds just its vertex. */
  lemma VisitVertex(w: Walk, seg: Segment, tolerance: real)
    requires seg.key in {'L', 'Z'} && WellFormed(seg) && w.pending == [] && tolerance > 0.0
    ensures Visit(w, seg, tolerance) == w.(current := w.current + [Vertex(w.start, seg)])
  {
    assert FlushCurve(w, tolerance) == w;
  }

  /** A path that is one move followed by lines and closes gives a single set: the
      move point, then the vertices. */
  lemma SinglePolylineSets(segs: seq<Segment>, tolerance: real)
    requires |segs| >= 1 && segs[0].key == 'M' && WellFormed(segs[0]) && Polyline(segs[1..]) && tolerance > 0.0
    ensures AllWellFormed(segs)
    ensures var start := Point(segs[0].data[0], segs[0].data[1]);
      Sets(segs, tolerance) == [[start] + Vertices(start, segs[1..])]
  {
    var start := Point(segs[0].data[0], segs[0].data[1]);
    assert AllWellFormed(segs) by {
      forall i | 1 <= i < |segs| ensures WellFormed(segs[i]) {
        assert segs[i] == segs[1..][i - 1];
      }
    }
    var w1 := Visit(Fresh, segs[0], tolerance);
    MoveStartsSubpath(Fresh, segs[0], tolerance);
    assert w1 == Walk([], [start], start, []);
    PolylineWellFormed(segs[1..]);
    PolylineWalk(w1, segs[1..], tolerance);
    var w := WalkFrom(Fresh, segs, tolerance);
    assert w == WalkFrom(w1, segs[1..], tolerance);
    assert FlushCurve(w, tolerance) == w;
  }

  /** The walk over the closed square gives one set: its four corners and the start again. */
  lemma SquareWalk(segs: seq<Segment>)
    requires |segs| == 5 && segs[0] == SquareSegments[0] && segs[1..] == SquareSegments[1..]
    ensures AllWellFormed(segs)
    ensures Sets(segs, 1.0)
      == [[Point(0.0, 0.0), Point(10.0, 0.0), Point(10.0, 10.0), Point(0.0, 10.0), Point(0.0, 0.0)]]
  {
    var p0 := Point(0.0, 0.0);
    var rest := segs[1..];
    assert Polyline(rest);
    SinglePolylineSets(segs, 1.0);
    var v := Vertices(p0, rest);
    assert v[0] == Point(10.0, 0.0) && v[1] == Point(10.0, 10.0) && v[2] == Point(0.0, 10.0) && v[3] == p0;
    assert [p0] + v == [p0, Point(10.0, 0.0), Point(10.0, 10.0), Point(0.0, 10.0), p0];
  }

  /** The tokens of `M0 0L10 0L10 10L0 10Z`. */
  const SquareTokens := [Command('M'), Number(0.0), Number(0.0), Command('L'), Number(10.0), Number(0.0),
    Command('L'), Number(10.0), Number(10.0), Command('L'), Number(0.0), Number(10.0), Command('Z')]

  lemma SmallNumerals()
    ensures DigitsValue("0") == 0 && DigitsValue("10") == 10
  {
    assert "10"[..1] == "1" && "1"[..0] == "";
  }

  /** The scan of the square's path text for any digit strings `p` and `q` in place of
      `0` and `10`. */
  lemma SquareShapeTokenizes(p: string, q: string)
    requires p != [] && forall i :: 0 <= i < |p| ==> IsDigit(p[i])
    requires q != [] && forall i :: 0 <= i < |q| ==> IsDigit(q[i])
    ensures var vp, vq := Number(DigitsValue(p) as real), Number(DigitsValue(q) as real);
      Lex(['M'] + p + [' '] + p + ['L'] + q + [' '] + p + ['L'] + q + [' '] + q + ['L'] + p + [' '] + q + ['Z'])
      == Some([Command('M'), vp, vp, Command('L'), vq, vp, Command('L'), vq, vq, Command('L'), vp, vq, Command('Z')])
  {
    var vp, vq := Number(DigitsValue(p) as real), Number(DigitsValue(q) as real);
    var z: string := ['Z'];
    var e: string := [];
    var et: seq<Token> := [];
    assert Lex(e) == Some(et);
    LexCommandThen('Z', e, et);
    assert [Command('Z')] + et == [Command('Z')] && ['Z'] + e == z;
    var s3 := ['L'] + p + [' '] + q + z;
    LexCommandPairThen('L', p, q, z, [Command('Z')]);
    var t3 := [Command('L'), vp, vq] + [Command('Z')];
    var s2 := ['L'] + q + [' '] + q + s3;
    LexCommandPairThen('L', q, q, s3, t3);
    var t2 := [Command('L'), vq, vq] + t3;
    var s1 := ['L'] + q + [' '] + p + s2;
    LexCommandPairThen('L', q, p, s2, t2);
    var t1 := [Command('L'), vq, vp] + t2;
    LexCommandPairThen('M', p, p, s1, t1);
    SquareTextShape(p, q);
    SquareTokenShape(vp, vq);
  }

  lemma SquareTextShape(p: string, q: string)
    ensures ['M'] + p + [' '] + p + (['L'] + q + [' '] + p + (['L'] + q + [' '] + q + (['L'] + p + [' '] + q + ['Z'])))
      == ['M'] + p + [' '] + p + ['L'] + q + [' '] + p + ['L'] + q + [' '] + q + ['L'] + p + [' '] + q + ['Z']
  {
  }

  lemma SquareTokenShape(vp: Token, vq: Token)
    ensures [Command('M'), vp, vp] + ([Command('L'), vq, vp] + ([Command('L'), vq, vq] + ([Command('L'), vp, vq] + [Command('Z')])))
      == [Command('M'), vp, vp, Command('L'), vq, vp, Command('L'), vq, vq, Command('L'), vp, vq, Command('Z')]
  {
  }

  /** `tokenize("M0 0L10 0L10 10L0 10Z")` gives exactly the square's tokens. */
  lemma SquareTokenizes()
    ensures Tokens("M0 0L10 0L10 10L0 10Z") == SquareTokens
  {
    SmallNumerals();
    SquareShapeTokenizes("0", "10");
    SquareText();
    TokensOfScan("M0 0L10 0L10 10L0 10Z", SquareTokens);
  }

  lemma SquareText()
    ensures ['M'] + "0" + [' '] + "0" + ['L'] + "10" + [' '] + "0" + ['L'] + "10" + [' '] + "10" + ['L'] + "0" + [' '] + "10" + ['Z']
      == "M0 0L10 0L10 10L0 10Z"
  {
  }

  lemma TokensOfScan(s: string, ts: seq<Token>)
    requires Lex(s) == Some(ts)
    ensures Tokens(s) == ts
  {
  }

  /** One non-stalling iteration that succeeds hands over to the next state. */
  lemma ParseAdvances(tokens: seq<Token>, st: ParseState, st': ParseState)
    requires st.idx < |tokens| && !Stalls(tokens, st)
    requires LoopBody(tokens, st) == Ok(st')
    ensures ParseFrom(tokens, st) == ParseFrom(tokens, st')
  {
  }

  /** The first twelve tokens of the square: four corners, each a command and two numbers. */
  predicate SquareCorners(t: seq<Token>)
  {
    |t| == 13
    && t[0] == Command('M') && t[1] == Number(0.0) && t[2] == Number(0.0)
    && t[3] == Command('L') && t[4] == Number(10.0) && t[5] == Number(0.0)
    && t[6] == Command('L') && t[7] == Number(10.0) && t[8] == Number(10.0)
    && t[9] == Command('L') && t[10] == Number(0.0) && t[11] == Number(10.0)
  }

  /** One segment of the square: a command token and two numbers in mode 'L' or 'M'. */
  lemma SquareStep(t: seq<Token>, st: ParseState, x: real, y: real, segs: seq<Segment>)
    requires st.idx + 3 <= |t| && t[st.idx].Command? && t[st.idx].c in {'M', 'L'}
    requires t[st.idx + 1] == Number(x) && t[st.idx + 2] == Number(y)
    requires segs == st.segments + [Segment(t[st.idx].c, [x, y])]
    ensures ParseFrom(t, st) == ParseFrom(t, ParseState(st.idx + 3, 'L', segs))
  {
    var a := AfterCommand(t, st);
    assert a == ParseState(st.idx + 1, t[st.idx].c, st.segments);
    assert t[a.idx..a.idx + 2] == [Number(x), Number(y)];
    var ps := Params([Number(x), Number(y)]);
    assert ps.Some? && |ps.value| == 2 && ps.value[0] == x && ps.value[1] == y;
    assert ps.value == [x, y];
    ReadSegmentOk(t, a, [x, y]);
    ParseAdvances(t, st, ParseState(st.idx + 3, 'L', segs));
  }

  /** The `M` and the first `L` of the square, read in two iterations. */
  lemma SquareFirstCorners(t: seq<Token>, s0: ParseState)
    requires SquareCorners(t)
    requires s0.idx == 0 && s0.mode == 'M' && s0.segments == []
    ensures ParseFrom(t, s0) == ParseFrom(t, ParseState(6, 'L', SquareSegments[..2]))
  {
    var segs1 := [Segment('M', [0.0, 0.0])];
    SquareStep(t, s0, 0.0, 0.0, segs1);
    var s1 := ParseState(3, 'L', segs1);
    assert SquareSegments[..1] == segs1;
    TakeSnoc(SquareSegments, 1);
    SquareStep(t, s1, 10.0, 0.0, SquareSegments[..2]);
  }

  /** The second and third `L` of the square, read in two iterations. */
  lemma SquareLastCorners(t: seq<Token>)
    requires SquareCorners(t)
    ensures ParseFrom(t, ParseState(6, 'L', SquareSegments[..2])) == ParseFrom(t, ParseState(12, 'L', SquareSegments[..4]))
  {
    var s2 := ParseState(6, 'L', SquareSegments[..2]);
    TakeSnoc(SquareSegments, 2);
    SquareStep(t, s2, 10.0, 10.0, SquareSegments[..3]);
    var s3 := ParseState(9, 'L', SquareSegments[..3]);
    TakeSnoc(SquareSegments, 3);
    SquareStep(t, s3, 0.0, 10.0, SquareSegments[..4]);
  }

  /** The closing `Z` takes no numbers and ends the token list. */
  lemma SquareCloses(t: seq<Token>)
    requires SquareCorners(t) && t[12] == Command('Z')
    ensures ParseFrom(t, ParseState(12, 'L', SquareSegments[..4])) == Ok(SquareSegments)
  {
    var s4 := ParseState(12, 'L', SquareSegments[..4]);
    var a := AfterCommand(t, s4);
    assert a == ParseState(13, 'Z', s4.segments);
    assert t[13..13] == [];
    ReadSegmentOk(t, a, []);
    var s5 := ParseState(13, NextMode('Z'), s4.segments + [Segment('Z', [])]);
    ParseAdvances(t, s4, s5);
    assert ParseFrom(t, s5) == Ok(s5.segments);
    assert s5.segments == SquareSegments;
  }

  /** `M0 0L10 0L10 10L0 10Z`, as tokens, parses to the five segments of the square. */
  lemma SquareParses()
    ensures ParseTokens(SquareTokens) == Ok(SquareSegments)
  {
    var t := SquareTokens;
    assert SquareCorners(t) && t[12] == Command('Z');
    SquareFirstCorners(t, InitialState(t));
    SquareLastCorners(t);
    SquareCloses(t);
  }

  /** Every segment of the square is already absolute. */
  lemma SquareIsAbsolute()
    ensures AllWellFormed(SquareSegments)
    ensures Absolutized(SquareSegments) == SquareSegments
  {
    var segs := SquareSegments;
    assert AllWellFormed(segs) && forall i | 0 <= i < |segs| :: IsUpperKey(segs[i].key);
    AbsoluteKept(segs);
  }

  /** The square, already absolute, also passes through normalize unchanged. */
  lemma SquareIsNormal(arc: ArcToCubics)
    ensures AllWellFormed(SquareSegments)
    ensures Normalized(SquareSegments, arc) == SquareSegments
  {
    var segs := SquareSegments;
    assert IsNormal(segs);
    NormFromKeepsNormal(Start, segs, arc);
  }

  /** `pointsOnPath("M0 0L10 0L10 10L0 10Z", 1, 0)`: one point set, the four corners
      and the start again, whatever arc conversion is injected. */
  lemma SquarePointsOnPath(arc: ArcToCubics)
    ensures PointsOnPathSpec("M0 0L10 0L10 10L0 10Z", 1.0, 0.0, arc)
      == Ok([[Point(0.0, 0.0), Point(10.0, 0.0), Point(10.0, 10.0), Point(0.0, 10.0), Point(0.0, 0.0)]])
  {
    SquareTokenizes();
    SquareParses();
    assert ParsePathSpec("M0 0L10 0L10 10L0 10Z") == Ok(SquareSegments);
    SquareIsAbsolute();
    SquareIsNormal(arc);
    SquareWalk(SquareSegments);
  }
}
