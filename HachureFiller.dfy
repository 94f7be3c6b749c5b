/** The hachure filler of src/fillers/HachureFiller.cpp: it draws the scan-line
    hachure of a polygon with fill strokes and, on request, stitches each line
    to the next by a connector clipped against the polygon.

    Lengths are compared through their squares: `lineLength(l) < 3` is
    `LineLengthSq(l) < 9`, and an intersection is kept when its squared
    distances from both connector ends exceed the square of
    `max(5, lineLength(segment) * 0.1)` (see `ShortTests` and `FarEnoughTest`). */
module HachureFiller {
  import opened Core
  import opened Geometry
  import opened ScanLineHachure
  import opened Renderer

  /** A place where a connector crosses a polygon edge, with its squared
      distance from the connector start (the source keeps the distance itself;
      both order the intersections alike). */
  datatype IntersectionInfo = IntersectionInfo(point: Point, distance: real)

  // ---------------------------------------------------------------- length tests

  /** An intersection far enough from a connector end: each squared distance
      above 25 and above a hundredth of the squared connector length. */
  predicate FarEnough(dSq: real, lenSq: real)
  {
    dSq > 25.0 && dSq > 0.01 * lenSq
  }

  /** With `d` and `len` the square roots of `dSq` and `lenSq`, `FarEnough` is
      the source's test `d > max(5, len * 0.1)`. */
  lemma FarEnoughTest(d: real, dSq: real, len: real, lenSq: real)
    requires d >= 0.0 && len >= 0.0 && d * d == dSq && len * len == lenSq
    ensures d > Max(5.0, len * 0.1) <==> FarEnough(dSq, lenSq)
  {
    var e := Max(5.0, len * 0.1);
    assert Sq(d) == dSq && Sq(len * 0.1) == 0.01 * lenSq && Sq(5.0) == 25.0;
    SquareOrder(d, e);
    SquareOrder(e, d);
    SquareOrder(5.0, len * 0.1);
    SquareOrder(len * 0.1, 5.0);
    assert Sq(e) == Max(25.0, 0.01 * lenSq);
  }

  /** With `len` the square root of `lenSq`, `len < 3` and `len > 3` are the
      comparisons of `lenSq` with 9. */
  lemma ShortTests(len: real, lenSq: real)
    requires len >= 0.0 && len * len == lenSq
    ensures len < 3.0 <==> lenSq < 9.0
    ensures len > 3.0 <==> lenSq > 9.0
  {
    assert Sq(len) == lenSq && Sq(3.0) == 9.0;
    SquareOrder(len, 3.0);
    SquareOrder(3.0, len);
  }

  // ---------------------------------------------------------------- intersections

  /** `midPointInPolygon`. */
  predicate MidPointInside(polygon: seq<Point>, segment: Line)
  {
    PointInPolygon(polygon, (segment.a.x + segment.b.x) / 2.0, (segment.a.y + segment.b.y) / 2.0)
  }

  /** What edge i of the polygon contributes: its crossing with the connector
      when the two segments intersect, the lines are not parallel and the
      crossing is far enough from both connector ends. */
  function Hit(polygon: seq<Point>, segment: Line, i: nat): Option<IntersectionInfo>
    requires i < |polygon|
  {
    var p1 := polygon[i];
    var p2 := polygon[(i + 1) % |polygon|];
    if DoIntersect(p1, p2, segment.a, segment.b) then
      match LineIntersection(p1, p2, segment.a, segment.b)
      case None => None
      case Some(ip) =>
        var d0 := LineLengthSq(Line(ip, segment.a));
        var d1 := LineLengthSq(Line(ip, segment.b));
        if FarEnough(d0, LineLengthSq(segment)) && FarEnough(d1, LineLengthSq(segment))
        then Some(IntersectionInfo(ip, d0))
        else None
    else None
  }

  /** A kept intersection: on the connector's line, at its recorded squared
      distance from the start, and far enough from both ends. */
  predicate Kept(segment: Line, h: IntersectionInfo)
  {
    && Orientation(segment.a, segment.b, h.point) == 0
    && h.distance == LineLengthSq(Line(h.point, segment.a))
    && FarEnough(h.distance, LineLengthSq(segment))
    && FarEnough(LineLengthSq(Line(h.point, segment.b)), LineLengthSq(segment))
  }

  /** The intersections collected from the first n edges, in edge order. */
  function Intersections(polygon: seq<Point>, segment: Line, n: nat): (r: seq<IntersectionInfo>)
    requires n <= |polygon|
    ensures |r| <= n
    ensures forall j | 0 <= j < |r| :: Kept(segment, r[j])
  {
    if n == 0 then []
    else
      var h := Hit(polygon, segment, n - 1);
      Intersections(polygon, segment, n - 1) + (if h.Some? then [h.value] else [])
  }

  /** Ascending by distance from the connector start. */
  predicate ByDistance(s: seq<IntersectionInfo>)
  {
    forall i, j | 0 <= i < j < |s| :: s[i].distance <= s[j].distance
  }

  function InsertByDistance(h: IntersectionInfo, s: seq<IntersectionInfo>): (r: seq<IntersectionInfo>)
    requires ByDistance(s)
    ensures ByDistance(r)
    ensures multiset(r) == multiset(s) + multiset{h}
  {
    if s == [] || h.distance <= s[0].distance then
      ConsByDistance(h, s);
      [h] + s
    else
      var rest := InsertByDistance(h, s[1..]);
      assert s == [s[0]] + s[1..];
      HeadBoundsDistance(s, rest, h);
      ConsByDistance(s[0], rest);
      [s[0]] + rest
  }

  /** An entry no further away than the head of a sorted list, or than all of
      it, extends it sorted. */
  lemma ConsByDistance(h: IntersectionInfo, s: seq<IntersectionInfo>)
    requires ByDistance(s)
    requires s == [] || h.distance <= s[0].distance || forall j | 0 <= j < |s| :: h.distance <= s[j].distance
    ensures ByDistance([h] + s)
  {
    var r := [h] + s;
    forall i, j | 0 <= i < j < |r| ensures r[i].distance <= r[j].distance {
      if i == 0 {
        assert r[j] == s[j - 1];
        if s != [] && h.distance <= s[0].distance {
          assert s[0].distance <= s[j - 1].distance || j - 1 == 0;
        }
      } else {
        assert r[i] == s[i - 1] && r[j] == s[j - 1];
      }
    }
  }

  /** Whatever is built from the tail of a sorted list and an entry further
      away than its head stays behind its head. */
  lemma HeadBoundsDistance(s: seq<IntersectionInfo>, rest: seq<IntersectionInfo>, h: IntersectionInfo)
    requires s != [] && ByDistance(s) && s[0].distance <= h.distance
    requires multiset(rest) == multiset(s[1..]) + multiset{h}
    ensures forall j | 0 <= j < |rest| :: s[0].distance <= rest[j].distance
  {
    forall j | 0 <= j < |rest| ensures s[0].distance <= rest[j].distance {
      assert rest[j] in multiset(rest);
      if rest[j] != h {
        assert rest[j] in multiset(s[1..]);
        var k :| 0 <= k < |s[1..]| && s[1..][k] == rest[j];
        assert s[k + 1] == rest[j];
      }
    }
  }

  /** `std::ranges::sort` of the intersections by distance. The library sort
      is not stable; this one keeps equal distances in input order. */
  function SortByDistance(s: seq<IntersectionInfo>): (r: seq<IntersectionInfo>)
    ensures ByDistance(r)
    ensures multiset(r) == multiset(s)
  {
    if s == [] then []
    else
      assert s == [s[0]] + s[1..];
      InsertByDistance(s[0], SortByDistance(s[1..]))
  }

  /** The points of the intersections, in order (`std::ranges::transform`). */
  function PointsOf(s: seq<IntersectionInfo>): (ps: seq<Point>)
    ensures |ps| == |s| && forall j | 0 <= j < |s| :: ps[j] == s[j].point
  {
    seq(|s|, j requires 0 <= j < |s| => s[j].point)
  }

  /** The sorted intersection points, without the first when the connector
      starts outside the polygon and without the last when it ends outside. */
  function Cuts(polygon: seq<Point>, segment: Line, sorted: seq<IntersectionInfo>): seq<Point>
    requires |sorted| > 1
  {
    Trim(PointsOf(sorted), !PointInPolygon(polygon, segment.a.x, segment.a.y), !PointInPolygon(polygon, segment.b.x, segment.b.y))
  }

  /** A list of at least two points without its first and without its last
      as asked. */
  function Trim(ips: seq<Point>, dropFirst: bool, dropLast: bool): (r: seq<Point>)
    requires |ips| > 1
    ensures var s := if dropFirst then 1 else 0;
      && |r| == |ips| - s - (if dropLast then 1 else 0)
      && forall j | 0 <= j < |r| :: r[j] == ips[j + s]
  {
    var ips1 := if dropFirst then ips[1..] else ips;
    if dropLast then ips1[..|ips1| - 1] else ips1
  }

  /** The connector itself when its midpoint is inside, else nothing. */
  function Whole(polygon: seq<Point>, segment: Line): seq<Line>
  {
    if MidPointInside(polygon, segment) then [segment] else []
  }

  /** The consecutive pairs 0-1, 2-3, ... of a point list; an odd last point
      is left over. */
  function Pairs(sp: seq<Point>): (r: seq<Line>)
    ensures |r| == |sp| / 2
    ensures forall j | 0 <= j < |r| :: r[j] == Line(sp[2 * j], sp[2 * j + 1])
  {
    seq(|sp| / 2, j requires 0 <= j < |sp| / 2 => Line(sp[2 * j], sp[2 * j + 1]))
  }

  /** The lines whose midpoint lies inside the polygon, in order. */
  function Inside(polygon: seq<Point>, ls: seq<Line>): (r: seq<Line>)
    ensures |r| <= |ls|
    ensures forall j | 0 <= j < |r| :: MidPointInside(polygon, r[j])
  {
    if ls == [] then []
    else
      var last := ls[|ls| - 1];
      Inside(polygon, ls[..|ls| - 1]) + (if MidPointInside(polygon, last) then [last] else [])
  }

  /** What `splitOnIntersections` returns. */
  function SplitPieces(polygon: seq<Point>, segment: Line): seq<Line>
  {
    var hits := Intersections(polygon, segment, |polygon|);
    if |hits| > 1 then PiecesBetween(polygon, segment, Cuts(polygon, segment, SortByDistance(hits)))
    else Whole(polygon, segment)
  }

  /** The pieces of a connector cut at the given points: the connector whole
      for fewer than two cuts, else the inside pairs of [start, cuts, end]. */
  function PiecesBetween(polygon: seq<Point>, segment: Line, cuts: seq<Point>): seq<Line>
  {
    if |cuts| <= 1 then Whole(polygon, segment)
    else Inside(polygon, Pairs([segment.a] + cuts + [segment.b]))
  }

  // ---------------------------------------------------------------- connectors

  /** The connector for line i: from its start back to the previous line's
      end, skipped after a previous line shorter than 3 and when not longer
      than 3 itself, otherwise clipped to the polygon. */
  function ConnectorAt(polygon: seq<Point>, lines: seq<Line>, i: nat): seq<Line>
    requires 1 <= i < |lines|
  {
    var prev := lines[i - 1];
    if LineLengthSq(prev) < 9.0 then []
    else
      var segment := Line(lines[i].a, prev.b);
      if LineLengthSq(segment) > 9.0 then SplitPieces(polygon, segment) else []
  }

  /** The connectors of lines 1 .. n-1, in order. */
  function Connectors(polygon: seq<Point>, lines: seq<Line>, n: nat): seq<Line>
    requires n <= |lines|
  {
    if n <= 1 then [] else Connectors(polygon, lines, n - 1) + ConnectorAt(polygon, lines, n - 1)
  }

  /** What `connectingLines` returns. */
  function ConnectingLinesOf(polygon: seq<Point>, lines: seq<Line>): seq<Line>
  {
    Connectors(polygon, lines, |lines|)
  }

  /** The lines `fillPolygon` draws: the hachure, then the connectors if asked. */
  function FillLines(points: seq<Point>, o: RoughOptions, connectEnds: bool, rotate: Rotate): seq<Line>
    requires points != []
  {
    var lines := PolygonHachure(points, o, HachureRotation(o), rotate);
    if connectEnds then lines + ConnectingLinesOf(points, lines) else lines
  }

  // ---------------------------------------------------------------- properties

  /** Every piece `splitOnIntersections` returns has its midpoint inside the polygon. */
  lemma SplitPiecesInside(polygon: seq<Point>, segment: Line)
    ensures forall j | 0 <= j < |SplitPieces(polygon, segment)| :: MidPointInside(polygon, SplitPieces(polygon, segment)[j])
  {
  }

  /** With fewer than two kept intersections, or fewer than two left after
      trimming, the connector is kept whole exactly when its midpoint is inside. */
  lemma FewCutsKeepWhole(polygon: seq<Point>, segment: Line)
    requires var hits := Intersections(polygon, segment, |polygon|);
      |hits| <= 1 || |Cuts(polygon, segment, SortByDistance(hits))| <= 1
    ensures SplitPieces(polygon, segment) == (if MidPointInside(polygon, segment) then [segment] else [])
  {
  }

  /** The cut points are the sorted points without the first when the
      connector starts outside the polygon and without the last when it ends
      outside. */
  lemma CutsTrimEnds(polygon: seq<Point>, segment: Line, sorted: seq<IntersectionInfo>)
    requires |sorted| > 1
    ensures var cuts := Cuts(polygon, segment, sorted);
      var s := if PointInPolygon(polygon, segment.a.x, segment.a.y) then 0 else 1;
      var e := if PointInPolygon(polygon, segment.b.x, segment.b.y) then 0 else 1;
      && |cuts| == |sorted| - s - e
      && forall j | 0 <= j < |cuts| :: cuts[j] == sorted[j + s].point
  {
  }

  /** Sorting keeps the intersections, so each sorted one is still a kept one. */
  lemma SortedAreKept(segment: Line, hits: seq<IntersectionInfo>)
    requires forall j | 0 <= j < |hits| :: Kept(segment, hits[j])
    ensures var sorted := SortByDistance(hits);
      |sorted| == |hits| && forall j | 0 <= j < |sorted| :: Kept(segment, sorted[j])
  {
    var sorted := SortByDistance(hits);
    assert |sorted| == |multiset(sorted)| == |multiset(hits)| == |hits|;
    forall j | 0 <= j < |sorted| ensures Kept(segment, sorted[j]) {
      assert sorted[j] in multiset(hits);
    }
  }

  /** The cut points taken from kept intersections (as those of
      `Intersections` are) are kept intersections taken in order from the
      intersections sorted by distance from the connector start, without the
      first when the start is outside the polygon and without the last when
      the end is; by `CutsByDistance` they are then in order of that distance. */
  lemma CutsOrderedAndTrimmed(polygon: seq<Point>, segment: Line, hits: seq<IntersectionInfo>)
    requires |hits| > 1
    requires forall j | 0 <= j < |hits| :: Kept(segment, hits[j])
    ensures var sorted := SortByDistance(hits);
      var cuts := Cuts(polygon, segment, sorted);
      var s := if PointInPolygon(polygon, segment.a.x, segment.a.y) then 0 else 1;
      var e := if PointInPolygon(polygon, segment.b.x, segment.b.y) then 0 else 1;
      && ByDistance(sorted) && multiset(sorted) == multiset(hits)
      && |cuts| == |hits| - s - e
      && (forall j | 0 <= j < |cuts| :: cuts[j] == sorted[j + s].point && Kept(segment, sorted[j + s]))
  {
    var sorted := SortByDistance(hits);
    SortedAreKept(segment, hits);
    CutsTrimEnds(polygon, segment, sorted);
  }

  /** Points taken in order from a list sorted by recorded distance, each
      recording its own squared distance from the start, are in order of that
      distance. */
  lemma CutsByDistance(segment: Line, sorted: seq<IntersectionInfo>, cuts: seq<Point>, s: nat)
    requires ByDistance(sorted) && |cuts| + s <= |sorted|
    requires forall j | 0 <= j < |sorted| :: Kept(segment, sorted[j])
    requires forall j | 0 <= j < |cuts| :: cuts[j] == sorted[j + s].point
    ensures forall i, j | 0 <= i < j < |cuts| ::
      LineLengthSq(Line(cuts[i], segment.a)) <= LineLengthSq(Line(cuts[j], segment.a))
  {
    forall i, j | 0 <= i < j < |cuts|
      ensures LineLengthSq(Line(cuts[i], segment.a)) <= LineLengthSq(Line(cuts[j], segment.a))
    {
      assert Kept(segment, sorted[i + s]) && Kept(segment, sorted[j + s]);
    }
  }

  /** With two or more cuts, the pieces are the pairs start-cut1, cut2-cut3,
      ..., of [start, cuts, end] whose midpoints are inside, at most half as
      many as those points. */
  lemma PiecesArePairs(polygon: seq<Point>, segment: Line)
    requires |Intersections(polygon, segment, |polygon|)| > 1
    requires |Cuts(polygon, segment, SortByDistance(Intersections(polygon, segment, |polygon|)))| > 1
    ensures var sp := [segment.a] + Cuts(polygon, segment, SortByDistance(Intersections(polygon, segment, |polygon|))) + [segment.b];
      var pieces := SplitPieces(polygon, segment);
      && pieces == Inside(polygon, Pairs(sp))
      && |pieces| <= |sp| / 2
      && Pairs(sp)[0].a == segment.a
      && (|sp| % 2 == 0 ==> Pairs(sp)[|sp| / 2 - 1].b == segment.b)
  {
    var cuts := Cuts(polygon, segment, SortByDistance(Intersections(polygon, segment, |polygon|)));
    PiecesBetweenPairs(polygon, segment, cuts);
  }

  /** Between two or more cuts the pieces are the inside pairs of
      [start, cuts, end], running from the start and, with an even count,
      to the end. */
  lemma PiecesBetweenPairs(polygon: seq<Point>, segment: Line, cuts: seq<Point>)
    requires |cuts| > 1
    ensures var sp := [segment.a] + cuts + [segment.b];
      && PiecesBetween(polygon, segment, cuts) == Inside(polygon, Pairs(sp))
      && |PiecesBetween(polygon, segment, cuts)| <= |sp| / 2
      && Pairs(sp)[0].a == segment.a
      && (|sp| % 2 == 0 ==> Pairs(sp)[|sp| / 2 - 1].b == segment.b)
  {
    PairsRunEndToEnd(segment.a, cuts, segment.b);
  }

  /** The first pair starts at the first point, and with an even count the
      last pair ends at the last point. */
  lemma PairsRunEndToEnd(a: Point, cuts: seq<Point>, b: Point)
    ensures var sp := [a] + cuts + [b];
      && Pairs(sp)[0].a == a
      && (|sp| % 2 == 0 ==> Pairs(sp)[|sp| / 2 - 1].b == b)
  {
    var sp := [a] + cuts + [b];
    assert Pairs(sp)[0] == Line(sp[0], sp[1]);
    if |sp| % 2 == 0 {
      assert Pairs(sp)[|sp| / 2 - 1] == Line(sp[|sp| - 2], sp[|sp| - 1]);
    }
  }

  /** `Inside` keeps exactly the lines whose midpoint is inside, in order: it
      is the subsequence of the marked lines. */
  lemma {:induction false} InsideIsFilter(polygon: seq<Point>, ls: seq<Line>, l: Line)
    ensures l in Inside(polygon, ls) <==> l in ls && MidPointInside(polygon, l)
    decreases |ls|
  {
    if ls != [] {
      var init, last := ls[..|ls| - 1], ls[|ls| - 1];
      InsideIsFilter(polygon, init, l);
      assert ls == init + [last];
    }
  }

  /** The first line has no connector before it. */
  lemma NoConnectorForFirstLine(polygon: seq<Point>, lines: seq<Line>)
    requires |lines| >= 1
    ensures Connectors(polygon, lines, 1) == []
  {
  }

  /** No connectors for fewer than two lines. */
  lemma FewLinesNoConnectors(polygon: seq<Point>, lines: seq<Line>)
    requires |lines| <= 1
    ensures ConnectingLinesOf(polygon, lines) == []
  {
  }

  /** A connector is skipped after a previous line shorter than 3, and when it
      is not longer than 3; otherwise it runs from this line's start to the
      previous line's end and is clipped to the polygon. */
  lemma ConnectorRule(polygon: seq<Point>, lines: seq<Line>, i: nat)
    requires 1 <= i < |lines|
    ensures var prev := lines[i - 1];
      var segment := Line(lines[i].a, prev.b);
      ConnectorAt(polygon, lines, i) ==
        if LineLengthSq(prev) < 9.0 || LineLengthSq(segment) <= 9.0 then []
        else SplitPieces(polygon, segment)
  {
  }

  lemma ConnectorsStep(polygon: seq<Point>, lines: seq<Line>, i: nat)
    requires 1 <= i < |lines|
    ensures var prev := lines[i - 1];
      var segment := Line(lines[i].a, prev.b);
      Connectors(polygon, lines, i + 1) == Connectors(polygon, lines, i) +
        if LineLengthSq(prev) < 9.0 || LineLengthSq(segment) <= 9.0 then []
        else SplitPieces(polygon, segment)
  {
  }

  /** Every connector that survives clipping has its midpoint inside the polygon. */
  lemma {:induction false} ConnectorsInside(polygon: seq<Point>, lines: seq<Line>, n: nat)
    requires n <= |lines|
    ensures forall j | 0 <= j < |Connectors(polygon, lines, n)| :: MidPointInside(polygon, Connectors(polygon, lines, n)[j])
  {
    if n > 1 {
      ConnectorsInside(polygon, lines, n - 1);
      var before, here := Connectors(polygon, lines, n - 1), ConnectorAt(polygon, lines, n - 1);
      var prev := lines[n - 2];
      SplitPiecesInside(polygon, Line(lines[n - 1].a, prev.b));
      assert forall j | 0 <= j < |here| :: MidPointInside(polygon, here[j]);
      assert Connectors(polygon, lines, n) == before + here;
    }
  }

  // ---------------------------------------------------------------- the filler

  /** `HachureFiller`: draws through the renderer it was made with. */
  class HachureFiller {
    const renderer: Renderer

    constructor(renderer: Renderer)
      ensures this.renderer == renderer
    {
      this.renderer := renderer;
    }

    /** `fillPolygon`: the hachure lines of the polygon (and the connectors
        when `connectEnds` is set), each drawn as a fill `doubleLine`. */
    method FillPolygon(points: seq<Point>, o: RoughOptions, connectEnds: bool, rotate: Rotate)
      requires points != []
      modifies renderer
      ensures renderer.ops == old(renderer.ops) + DrawEach(DoubleLines(renderer.env, o, true), old(renderer.drawn), FillLines(points, o, connectEnds, rotate)).ops
      ensures renderer.drawn == DrawEach(DoubleLines(renderer.env, o, true), old(renderer.drawn), FillLines(points, o, connectEnds, rotate)).next
    {
      var lines := HachureAndConnectors(points, o, connectEnds, rotate);
      RenderLines(lines, o);
    }

    /** The lines of `fillPolygon`: the polygon's hachure, followed by its
        connectors when `connectEnds` is set. */
    method HachureAndConnectors(points: seq<Point>, o: RoughOptions, connectEnds: bool, rotate: Rotate) returns (lines: seq<Line>)
      requires points != []
      ensures lines == FillLines(points, o, connectEnds, rotate)
    {
      var hachure := PolygonHachureLines(points, o, rotate);
      if connectEnds {
        var connecting := ConnectingLines(points, hachure);
        lines := hachure + connecting;
      } else {
        lines := hachure;
      }
    }

    /** `renderLines`: one `doubleLineFillOps` per line, in order. */
    method RenderLines(lines: seq<Line>, o: RoughOptions)
      modifies renderer
      ensures renderer.ops == old(renderer.ops) + DrawEach(DoubleLines(renderer.env, o, true), old(renderer.drawn), lines).ops
      ensures renderer.drawn == DrawEach(DoubleLines(renderer.env, o, true), old(renderer.drawn), lines).next
    {
      ghost var k, ops0 := renderer.drawn, renderer.ops;
      var i := 0;
      while i < |lines|
        invariant 0 <= i <= |lines|
        invariant renderer.ops == ops0 + DrawEach(DoubleLines(renderer.env, o, true), k, lines[..i]).ops
        invariant renderer.drawn == DrawEach(DoubleLines(renderer.env, o, true), k, lines[..i]).next
      {
        TakeSnoc(lines, i);
        RenderLine(lines[i], o, k, ops0, lines[..i]);
        i := i + 1;
      }
      TakeAll(lines);
    }

    /** One more fill line, drawn with `doubleLineFillOps` from l.a to l.b. */
    method RenderLine(l: Line, o: RoughOptions, ghost k: nat, ghost ops0: seq<Op>, ghost done: seq<Line>)
      requires renderer.ops == ops0 + DrawEach(DoubleLines(renderer.env, o, true), k, done).ops
      requires renderer.drawn == DrawEach(DoubleLines(renderer.env, o, true), k, done).next
      modifies renderer
      ensures renderer.ops == ops0 + DrawEach(DoubleLines(renderer.env, o, true), k, done + [l]).ops
      ensures renderer.drawn == DrawEach(DoubleLines(renderer.env, o, true), k, done + [l]).next
    {
      SnocDoubleLine(renderer.env, o, true, k, done, l);
      renderer.DoubleLineFillOps(l.a.x, l.a.y, l.b.x, l.b.y, o);
      Extend(ops0, DrawEach(DoubleLines(renderer.env, o, true), k, done),
        DoubleLineDraw(renderer.env, DrawEach(DoubleLines(renderer.env, o, true), k, done).next, l.a.x, l.a.y, l.b.x, l.b.y, o, true),
        DrawEach(DoubleLines(renderer.env, o, true), k, done + [l]));
    }

    /** `connectingLines`. */
    method ConnectingLines(polygon: seq<Point>, lines: seq<Line>) returns (result: seq<Line>)
      ensures result == ConnectingLinesOf(polygon, lines)
    {
      result := [];
      if |lines| > 1 {
        NoConnectorForFirstLine(polygon, lines);
        for i := 1 to |lines|
          invariant result == Connectors(polygon, lines, i)
        {
          result := ConnectorFor(polygon, lines, i, result);
        }
      } else {
        FewLinesNoConnectors(polygon, lines);
      }
    }

    /** One iteration of the loop of `connectingLines`: nothing is appended
        after a short line (the `continue`) or for a short connector, else the
        clipped connector is. */
    method ConnectorFor(polygon: seq<Point>, lines: seq<Line>, i: nat, result: seq<Line>) returns (r: seq<Line>)
      requires 1 <= i < |lines|
      requires result == Connectors(polygon, lines, i)
      ensures r == Connectors(polygon, lines, i + 1)
    {
      r := result;
      var prev := lines[i - 1];
      if LineLengthSq(prev) < 9.0 {
        return;
      }
      var current := lines[i];
      var segment := Line(current.a, prev.b);
      if LineLengthSq(segment) > 9.0 {
        var segSplits := SplitOnIntersections(polygon, segment);
        r := r + segSplits;
      }
    }

    /** `midPointInPolygon`. */
    method MidPointInPolygon(polygon: seq<Point>, segment: Line) returns (inside: bool)
      ensures inside == MidPointInside(polygon, segment)
      ensures |polygon| < 3 ==> !inside
    {
      inside := IsPointInPolygon(polygon, (segment.a.x + segment.b.x) / 2.0, (segment.a.y + segment.b.y) / 2.0);
    }

    /** The edge loop of `splitOnIntersections`. */
    method CollectIntersections(polygon: seq<Point>, segment: Line) returns (intersections: seq<IntersectionInfo>)
      ensures intersections == Intersections(polygon, segment, |polygon|)
      ensures forall j | 0 <= j < |intersections| :: Kept(segment, intersections[j])
    {
      intersections := [];
      var lenSq := LineLengthSq(segment);
      for i := 0 to |polygon|
        invariant intersections == Intersections(polygon, segment, i)
      {
        var p1 := polygon[i];
        var p2 := polygon[(i + 1) % |polygon|];
        if DoIntersect(p1, p2, segment.a, segment.b) {
          var ip := LineIntersection(p1, p2, segment.a, segment.b);
          if ip.Some? {
            var d0 := LineLengthSq(Line(ip.value, segment.a));
            var d1 := LineLengthSq(Line(ip.value, segment.b));
            if FarEnough(d0, lenSq) && FarEnough(d1, lenSq) {
              intersections := intersections + [IntersectionInfo(ip.value, d0)];
            }
          }
        }
      }
    }

    /** `splitOnIntersections`: the pieces of the connector whose midpoints
        are inside the polygon. */
    method SplitOnIntersections(polygon: seq<Point>, segment: Line) returns (pieces: seq<Line>)
      ensures pieces == SplitPieces(polygon, segment)
    {
      var intersections := CollectIntersections(polygon, segment);
      if |intersections| > 1 {
        var sorted := SortByDistance(intersections);
        var ips := PointsOf(sorted);
        var startInside := IsPointInPolygon(polygon, segment.a.x, segment.a.y);
        if !startInside {
          ips := ips[1..];
        }
        var endInside := IsPointInPolygon(polygon, segment.b.x, segment.b.y);
        if !endInside {
          ips := ips[..|ips| - 1];
        }
        assert ips == Cuts(polygon, segment, sorted);
        if |ips| <= 1 {
          var mid := MidPointInPolygon(polygon, segment);
          return if mid then [segment] else [];
        }
        var spoints := [segment.a] + ips + [segment.b];
        pieces := PairsInside(polygon, spoints);
      } else {
        var mid := MidPointInPolygon(polygon, segment);
        pieces := if mid then [segment] else [];
      }
    }

    /** The pairing loop of `splitOnIntersections`: sub-segments 0-1, 2-3, ...
        kept when their midpoint is inside. */
    method PairsInside(polygon: seq<Point>, spoints: seq<Point>) returns (slines: seq<Line>)
      requires |spoints| >= 1
      ensures slines == Inside(polygon, Pairs(spoints))
    {
      slines := [];
      ghost var pairs := Pairs(spoints);
      var i := 0;
      while i < |spoints| - 1
        invariant i % 2 == 0 && i <= |spoints|
        invariant slines == Inside(polygon, pairs[..i / 2])
        decreases |spoints| - i
      {
        var subSegment := Line(spoints[i], spoints[i + 1]);
        assert subSegment == pairs[i / 2];
        assert pairs[..i / 2 + 1][..i / 2] == pairs[..i / 2];
        var mid := MidPointInPolygon(polygon, subSegment);
        if mid {
          slines := slines + [subSegment];
        }
        i := i + 2;
      }
      assert i / 2 == |pairs|;
      assert pairs[..i / 2] == pairs;
    }
  }

  /** `patternFillPolygon` of src/Renderer.cpp: a filler over the renderer,
      without connectors. */
  method PatternFillPolygon(renderer: Renderer, points: seq<Point>, o: RoughOptions, rotate: Rotate)
    requires points != []
    modifies renderer
    ensures renderer.ops == old(renderer.ops) + DrawEach(DoubleLines(renderer.env, o, true), old(renderer.drawn), FillLines(points, o, false, rotate)).ops
    ensures renderer.drawn == DrawEach(DoubleLines(renderer.env, o, true), old(renderer.drawn), FillLines(points, o, false, rotate)).next
  {
    var filler := new HachureFiller(renderer);
    filler.FillPolygon(points, o, false, rotate);
  }
}
