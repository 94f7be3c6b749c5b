/** The scan-line hachure of src/fillers/ScanLineHachure.cpp: an edge table of
    the closed polygon sorted by (ymin, x, ymax), a sweep in steps of `gap` that
    moves started edges into an active set, drops finished ones, sorts the rest
    by x and pairs them into horizontal lines. */
module ScanLineHachure {
  import opened Core

  /** An entry of the edge table: the lower and upper y, the x at the lower end
      and the inverse slope dx/dy. */
  datatype EdgeEntry = EdgeEntry(ymin: real, ymax: real, x: real, islope: real)

  /** An edge of the active set with the scan line `s` at which it started. */
  datatype ActiveEdge = ActiveEdge(s: real, edge: EdgeEntry)

  // ---------------------------------------------------------------- rounding and gap

  /** C `round`: to the nearest integer, halves away from zero. */
  function Round(x: real): (r: real)
    ensures r == r.Floor as real
    ensures Abs(r - x) <= 0.5
    ensures Abs(r - x) == 0.5 ==> Abs(r) > Abs(x)
  {
    if x >= 0.0 then HalfUp(x)
    else
      var h := HalfUp(-x);
      assert (-h).Floor == -(h.Floor);
      -h
  }

  /** `floor(x + 0.5)` for non-negative x. */
  function HalfUp(x: real): (r: real)
    requires x >= 0.0
    ensures x - 0.5 < r <= x + 0.5
    ensures r == r.Floor as real
  {
    var n := (x + 0.5).Floor;
    assert n as real <= x + 0.5 < n as real + 1.0;
    n as real
  }

  /** Rounding commutes with negation. */
  lemma RoundIsOdd(x: real)
    ensures Round(-x) == -Round(x)
  {
    if x == 0.0 {
      assert -x == 0.0;
    }
  }

  /** The effective hachure gap: `hachureGap`, or four stroke widths when it is
      negative, and never below 0.1. */
  function Gap(o: RoughOptions): (g: real)
    ensures g >= 0.1
    ensures o.hachureGap >= 0.1 ==> g == o.hachureGap
    ensures o.hachureGap < 0.0 ==> g == Max(o.strokeWidth * 4.0, 0.1)
    ensures 0.0 <= o.hachureGap < 0.1 ==> g == 0.1
  {
    var gap := if o.hachureGap < 0.0 then o.strokeWidth * 4.0 else o.hachureGap;
    Max(gap, 0.1)
  }

  // ---------------------------------------------------------------- edge table

  /** The polygon closed by repeating its first vertex when the last differs. */
  function Close(points: seq<Point>): (v: seq<Point>)
    requires points != []
    ensures |v| == if points[0] == points[|points| - 1] then |points| else |points| + 1
    ensures v[..|points|] == points && v[|v| - 1] == points[0]
  {
    if points[0] != points[|points| - 1] then points + [points[0]] else points
  }

  /** The edge-table entry of a non-horizontal edge. */
  function EdgeOf(p1: Point, p2: Point): (e: EdgeEntry)
    requires p1.y != p2.y
    ensures e.ymin < e.ymax
    ensures (e.ymin == p1.y && e.ymax == p2.y && e.x == p1.x) || (e.ymin == p2.y && e.ymax == p1.y && e.x == p2.x)
  {
    var ymin := Min(p1.y, p2.y);
    EdgeEntry(ymin, Max(p1.y, p2.y), if ymin == p1.y then p1.x else p2.x, (p2.x - p1.x) / (p2.y - p1.y))
  }

  /** The edges of consecutive vertex pairs, horizontal ones left out. */
  function EdgeTable(v: seq<Point>): (es: seq<EdgeEntry>)
    ensures |es| <= if |v| == 0 then 0 else |v| - 1
    ensures forall i | 0 <= i < |es| :: es[i].ymin < es[i].ymax
    decreases |v|
  {
    if |v| < 2 then []
    else
      var p1, p2 := v[|v| - 2], v[|v| - 1];
      EdgeTable(v[..|v| - 1]) + (if p1.y != p2.y then [EdgeOf(p1, p2)] else [])
  }

  /** Without horizontal edges every vertex pair gives the edge at its index. */
  lemma {:induction false} EdgeTableOfSlopedPolygon(v: seq<Point>)
    requires |v| >= 1 && forall i | 0 <= i < |v| - 1 :: v[i].y != v[i + 1].y
    ensures |EdgeTable(v)| == |v| - 1
    ensures forall i | 0 <= i < |v| - 1 :: EdgeTable(v)[i] == EdgeOf(v[i], v[i + 1])
    decreases |v|
  {
    if |v| >= 2 {
      var w := v[..|v| - 1];
      assert forall i | 0 <= i < |w| :: w[i] == v[i];
      EdgeTableOfSlopedPolygon(w);
    }
  }

  /** A polygon whose edges are all horizontal has an empty edge table. */
  lemma {:induction false} FlatPolygonHasNoEdges(v: seq<Point>)
    requires forall i | 0 <= i < |v| - 1 :: v[i].y == v[i + 1].y
    ensures EdgeTable(v) == []
    decreases |v|
  {
    if |v| >= 2 {
      var w := v[..|v| - 1];
      assert forall i | 0 <= i < |w| :: w[i] == v[i];
      FlatPolygonHasNoEdges(w);
    }
  }

  /** The loop that builds the edge table. */
  method BuildEdges(vertices: seq<Point>) returns (edges: seq<EdgeEntry>)
    requires |vertices| >= 1
    ensures edges == EdgeTable(vertices)
  {
    edges := [];
    var i := 0;
    while i < |vertices| - 1
      invariant 0 <= i <= |vertices| - 1
      invariant edges == EdgeTable(vertices[..i + 1])
    {
      var p1, p2 := vertices[i], vertices[i + 1];
      if p1.y != p2.y {
        edges := edges + [EdgeOf(p1, p2)];
      }
      assert vertices[..i + 2][..i + 1] == vertices[..i + 1];
      i := i + 1;
    }
    assert vertices[..i + 1] == vertices;
  }

  // ---------------------------------------------------------------- edge order

  /** The intended comparator: strictly ascending by (ymin, x, ymax). */
  predicate EdgeLess(e1: EdgeEntry, e2: EdgeEntry)
  {
    e1.ymin < e2.ymin || (e1.ymin == e2.ymin && (e1.x < e2.x || (e1.x == e2.x && e1.ymax < e2.ymax)))
  }

  /** The comparator as written: on equal (ymin, x) it answers true for equal
      ymax, and otherwise tests the sign of the ymax difference. */
  predicate EdgeLessAsWritten(e1: EdgeEntry, e2: EdgeEntry)
  {
    if e1.ymin < e2.ymin then true
    else if e1.ymin > e2.ymin then false
    else if e1.x < e2.x then true
    else if e1.x > e2.x then false
    else if e1.ymax == e2.ymax then true
    else (e1.ymax - e2.ymax) / Abs(e1.ymax - e2.ymax) <= 0.0
  }

  /** `d / |d|` is the sign of a non-zero d. */
  lemma SignTest(d: real)
    requires d != 0.0
    ensures d / Abs(d) <= 0.0 <==> d < 0.0
  {
    if d > 0.0 {
      assert d / Abs(d) == 1.0;
    } else {
      assert d / Abs(d) == -1.0;
    }
  }

  /** The written comparator agrees with the intended one except on equal keys. */
  lemma AsWrittenAgreesOffTies(e1: EdgeEntry, e2: EdgeEntry)
    requires (e1.ymin, e1.x, e1.ymax) != (e2.ymin, e2.x, e2.ymax)
    ensures EdgeLessAsWritten(e1, e2) == EdgeLess(e1, e2)
  {
    if e1.ymin == e2.ymin && e1.x == e2.x {
      SignTest(e1.ymax - e2.ymax);
    }
  }

  /** The two edges of the V-shaped triangle (0,0), (5,10), (-5,10) have equal
      keys, and the written comparator orders each before the other, which no
      strict weak ordering (as `std::ranges::sort` requires) does. */
  lemma AsWrittenIsNotStrict()
    ensures var v := [Point(0.0, 0.0), Point(5.0, 10.0), Point(-5.0, 10.0), Point(0.0, 0.0)];
      var e1, e2 := EdgeOf(v[0], v[1]), EdgeOf(v[2], v[3]);
      EdgeLessAsWritten(e1, e2) && EdgeLessAsWritten(e2, e1)
  {
  }

  /** The intended comparator is a strict ordering: irreflexive, transitive, and
      its complement is transitive too (equal keys are equivalent). */
  lemma EdgeLessIsStrict(e1: EdgeEntry, e2: EdgeEntry, e3: EdgeEntry)
    ensures !EdgeLess(e1, e1)
    ensures EdgeLess(e1, e2) && EdgeLess(e2, e3) ==> EdgeLess(e1, e3)
    ensures !EdgeLess(e2, e1) && !EdgeLess(e3, e2) ==> !EdgeLess(e3, e1)
    ensures EdgeLess(e1, e2) ==> !EdgeLess(e2, e1)
  {
  }

  /** Ascending: no later entry is strictly less than an earlier one. */
  predicate EdgesSorted(s: seq<EdgeEntry>)
  {
    forall i, j | 0 <= i < j < |s| :: !EdgeLess(s[j], s[i])
  }

  function InsertEdge(e: EdgeEntry, s: seq<EdgeEntry>): (r: seq<EdgeEntry>)
    requires EdgesSorted(s)
    ensures EdgesSorted(r)
    ensures multiset(r) == multiset(s) + multiset{e}
  {
    if s == [] then [e]
    else if !EdgeLess(s[0], e) then
      assert forall j | 0 <= j < |s| :: !EdgeLess(s[j], e) by {
        forall j | 0 <= j < |s| ensures !EdgeLess(s[j], e) {
          EdgeLessIsStrict(e, s[0], s[j]);
        }
      }
      [e] + s
    else
      var rest := InsertEdge(e, s[1..]);
      assert s == [s[0]] + s[1..];
      HeadBoundsEdges(s, rest, e);
      [s[0]] + rest
  }

  /** Whatever is built from the tail of a sorted table and an entry after
      its head stays after its head. */
  lemma HeadBoundsEdges(s: seq<EdgeEntry>, rest: seq<EdgeEntry>, e: EdgeEntry)
    requires s != [] && EdgesSorted(s) && EdgeLess(s[0], e)
    requires multiset(rest) == multiset(s[1..]) + multiset{e}
    ensures forall j | 0 <= j < |rest| :: !EdgeLess(rest[j], s[0])
  {
    forall j | 0 <= j < |rest| ensures !EdgeLess(rest[j], s[0]) {
      assert rest[j] in multiset(rest);
      if rest[j] != e {
        assert rest[j] in multiset(s[1..]);
        var k :| 0 <= k < |s[1..]| && s[1..][k] == rest[j];
        assert s[k + 1] == rest[j];
      }
    }
  }

  /** `std::ranges::sort` of the edge table with the intended comparator. */
  function SortEdges(s: seq<EdgeEntry>): (r: seq<EdgeEntry>)
    ensures EdgesSorted(r)
    ensures multiset(r) == multiset(s)
  {
    if s == [] then []
    else
      assert s == [s[0]] + s[1..];
      InsertEdge(s[0], SortEdges(s[1..]))
  }

  // ---------------------------------------------------------------- active-edge order

  /** The active-set comparator as written: false on equal x, else the sign test. */
  predicate ActiveLessAsWritten(a1: ActiveEdge, a2: ActiveEdge)
  {
    if a1.edge.x == a2.edge.x then false
    else (a1.edge.x - a2.edge.x) / Abs(a1.edge.x - a2.edge.x) <= 0.0
  }

  /** It is exactly "strictly smaller x". */
  lemma ActiveLessIsByX(a1: ActiveEdge, a2: ActiveEdge)
    ensures ActiveLessAsWritten(a1, a2) <==> a1.edge.x < a2.edge.x
  {
    if a1.edge.x != a2.edge.x {
      SignTest(a1.edge.x - a2.edge.x);
    }
  }

  predicate SortedByX(s: seq<ActiveEdge>)
  {
    forall i, j | 0 <= i < j < |s| :: s[i].edge.x <= s[j].edge.x
  }

  function InsertByX(a: ActiveEdge, s: seq<ActiveEdge>): (r: seq<ActiveEdge>)
    requires SortedByX(s)
    ensures SortedByX(r)
    ensures multiset(r) == multiset(s) + multiset{a}
  {
    if s == [] || a.edge.x <= s[0].edge.x then
      ConsSortedX(a, s);
      [a] + s
    else
      var rest := InsertByX(a, s[1..]);
      assert s == [s[0]] + s[1..];
      HeadBoundsX(s, rest, a);
      ConsSortedX(s[0], rest);
      [s[0]] + rest
  }

  /** An entry no larger than the head of a sorted sequence, or than all of
      it, extends it sorted. */
  lemma ConsSortedX(h: ActiveEdge, s: seq<ActiveEdge>)
    requires SortedByX(s)
    requires s == [] || h.edge.x <= s[0].edge.x || forall j | 0 <= j < |s| :: h.edge.x <= s[j].edge.x
    ensures SortedByX([h] + s)
  {
    var r := [h] + s;
    forall i, j | 0 <= i < j < |r| ensures r[i].edge.x <= r[j].edge.x {
      if i == 0 {
        assert r[j] == s[j - 1];
        if s != [] && h.edge.x <= s[0].edge.x {
          assert s[0].edge.x <= s[j - 1].edge.x || j - 1 == 0;
        }
      } else {
        assert r[i] == s[i - 1] && r[j] == s[j - 1];
      }
    }
  }

  /** Whatever is built from the tail of a sorted sequence and an entry of
      larger x is bounded below by its head. */
  lemma HeadBoundsX(s: seq<ActiveEdge>, rest: seq<ActiveEdge>, a: ActiveEdge)
    requires s != [] && SortedByX(s) && s[0].edge.x <= a.edge.x
    requires multiset(rest) == multiset(s[1..]) + multiset{a}
    ensures forall j | 0 <= j < |rest| :: s[0].edge.x <= rest[j].edge.x
  {
    forall j | 0 <= j < |rest| ensures s[0].edge.x <= rest[j].edge.x {
      assert rest[j] in multiset(rest);
      if rest[j] != a {
        assert rest[j] in multiset(s[1..]);
        var k :| 0 <= k < |s[1..]| && s[1..][k] == rest[j];
        assert s[k + 1] == rest[j];
      }
    }
  }

  /** `std::ranges::sort` of the active set by x. The library sort is not
      stable; edges with equal x may come out in any order, and this one keeps
      them in input order. Only x is read from the sorted set, so the emitted
      lines do not depend on that choice. */
  function SortByX(s: seq<ActiveEdge>): (r: seq<ActiveEdge>)
    ensures SortedByX(r)
    ensures multiset(r) == multiset(s)
  {
    if s == [] then []
    else
      assert s == [s[0]] + s[1..];
      InsertByX(s[0], SortByX(s[1..]))
  }

  // ---------------------------------------------------------------- one scan line

  /** How many leading pending edges have started by scan line y. */
  function Started(pending: seq<EdgeEntry>, y: real): (k: nat)
    ensures k <= |pending|
    ensures forall i | 0 <= i < k :: pending[i].ymin <= y
    ensures k < |pending| ==> pending[k].ymin > y
  {
    if pending == [] || pending[0].ymin > y then 0 else 1 + Started(pending[1..], y)
  }

  /** The search for the last started edge: `ix` starts at -1 (all ones as a
      `size_t`, so `ix + 1` wraps to 0) and the loop stops at the first edge
      that starts above y. */
  method StartedCount(pending: seq<EdgeEntry>, y: real) returns (count: nat)
    ensures count == Started(pending, y)
  {
    var ix: int := -1;
    var i := 0;
    while i < |pending|
      invariant 0 <= i <= |pending| && ix == i - 1
      invariant forall j | 0 <= j < i :: pending[j].ymin <= y
      invariant Started(pending, y) == i + Started(pending[i..], y)
    {
      if pending[i].ymin > y {
        break;
      }
      ix := i;
      assert pending[i..][1..] == pending[i + 1..];
      i := i + 1;
    }
    count := ix + 1;
  }

  /** Entries for edges that join the active set at scan line y. */
  function Activate(es: seq<EdgeEntry>, y: real): (r: seq<ActiveEdge>)
    ensures |r| == |es| && forall i | 0 <= i < |es| :: r[i] == ActiveEdge(y, es[i])
  {
    seq(|es|, i requires 0 <= i < |es| => ActiveEdge(y, es[i]))
  }

  /** `erase_if` of the finished edges: exactly those with ymax > y stay, in order. */
  function Live(active: seq<ActiveEdge>, y: real): (r: seq<ActiveEdge>)
    ensures |r| <= |active|
    ensures forall a | a in r :: a in active && a.edge.ymax > y
    ensures forall a | a in active && a.edge.ymax > y :: a in r
  {
    if active == [] then []
    else
      assert forall a | a in active :: a == active[0] || a in active[1..];
      (if active[0].edge.ymax <= y then [] else [active[0]]) + Live(active[1..], y)
  }

  /** The line at height y between two active edges, their x rounded. */
  function ScanLine(left: ActiveEdge, right: ActiveEdge, y: real): (l: Line)
    ensures l.a.y == y && l.b.y == y
  {
    Line(Point(Round(left.edge.x), y), Point(Round(right.edge.x), y))
  }

  /** The horizontal lines of one scan line: active edges 0-1, 2-3, ... paired. */
  function PairLines(active: seq<ActiveEdge>, y: real): (r: seq<Line>)
    ensures |r| == |active| / 2
    ensures forall i | 0 <= i < |r| :: r[i] == ScanLine(active[2 * i], active[2 * i + 1], y)
    decreases |active|
  {
    if |active| < 2 then []
    else [ScanLine(active[0], active[1], y)] + PairLines(active[2..], y)
  }

  /** The fill loop of one scan line. */
  method FillBetween(active: seq<ActiveEdge>, y: real) returns (lines: seq<Line>)
    ensures lines == PairLines(active, y)
  {
    lines := [];
    if |active| > 1 {
      var i := 0;
      while i < |active|
        invariant 0 <= i <= |active|
        invariant PairLines(active, y) == lines + PairLines(active[i..], y)
        decreases |active| - i
      {
        var nexti := i + 1;
        if nexti >= |active| {
          PairsLeftOver(active, i, y);
          break;
        }
        PairsStep(active, i, y, lines);
        lines := lines + [ScanLine(active[i], active[nexti], y)];
        i := i + 2;
      }
      PairsLeftOver(active, i, y);
    }
  }

  /** The pairs from position i on start with active edges i and i + 1, so
      moving that pair onto the lines already drawn keeps the whole. */
  lemma PairsStep(active: seq<ActiveEdge>, i: nat, y: real, lines: seq<Line>)
    requires i + 1 < |active|
    ensures PairLines(active[i..], y) == [ScanLine(active[i], active[i + 1], y)] + PairLines(active[i + 2..], y)
    ensures lines + PairLines(active[i..], y) == (lines + [ScanLine(active[i], active[i + 1], y)]) + PairLines(active[i + 2..], y)
  {
    assert active[i..][2..] == active[i + 2..];
  }

  /** Fewer than two edges from position i on make no pair. */
  lemma PairsLeftOver(active: seq<ActiveEdge>, i: nat, y: real)
    requires |active| <= i + 1
    ensures i <= |active| ==> PairLines(active[i..], y) == []
  {
  }

  /** Every active edge's x moves by gap * islope to the next scan line. */
  function Advance(active: seq<ActiveEdge>, gap: real): (r: seq<ActiveEdge>)
    ensures |r| == |active|
    ensures forall i | 0 <= i < |active| ::
      r[i] == active[i].(edge := active[i].edge.(x := active[i].edge.x + gap * active[i].edge.islope))
  {
    seq(|active|, i requires 0 <= i < |active| =>
      active[i].(edge := active[i].edge.(x := active[i].edge.x + gap * active[i].edge.islope)))
  }

  /** The in-place update loop over the active set. */
  method AdvanceEdges(active: seq<ActiveEdge>, gap: real) returns (r: seq<ActiveEdge>)
    ensures r == Advance(active, gap)
  {
    r := active;
    for i := 0 to |r|
      invariant |r| == |active|
      invariant forall j | 0 <= j < i :: r[j] == Advance(active, gap)[j]
      invariant forall j | i <= j < |r| :: r[j] == active[j]
    {
      var ae := r[i];
      r := r[i := ae.(edge := ae.edge.(x := ae.edge.x + gap * ae.edge.islope))];
    }
  }

  // ---------------------------------------------------------------- the sweep

  /** What the sweep loop carries: the pending edges, the active set and y. */
  datatype ScanState = ScanState(pending: seq<EdgeEntry>, active: seq<ActiveEdge>, y: real)

  /** One iteration of the sweep: the new state and the lines it emits. */
  function Step(st: ScanState, gap: real): (ScanState, seq<Line>)
  {
    var k := Started(st.pending, st.y);
    var joined := st.active + Activate(st.pending[..k], st.y);
    var sorted := SortByX(Live(joined, st.y));
    (ScanState(st.pending[k..], Advance(sorted, gap), st.y + gap), PairLines(sorted, st.y))
  }

  /** Pending edges are non-horizontal, start above `lo` and end by `top`. */
  predicate PendingBounded(pending: seq<EdgeEntry>, lo: real, top: real)
  {
    forall i | 0 <= i < |pending| :: lo < pending[i].ymin < pending[i].ymax <= top
  }

  predicate AscendingYmin(pending: seq<EdgeEntry>)
  {
    forall i, j | 0 <= i < j < |pending| :: pending[i].ymin <= pending[j].ymin
  }

  /** Active edges end above `lo` and by `top`. */
  predicate ActiveBounded(active: seq<ActiveEdge>, lo: real, top: real)
  {
    forall a | a in active :: lo < a.edge.ymax <= top
  }

  /** What holds at the top of every iteration, with `top` the largest ymax of
      the edge table: pending edges have not started one gap ago and stay in
      ascending ymin; active edges did not finish one gap ago. */
  predicate Inv(st: ScanState, gap: real, top: real)
  {
    PendingBounded(st.pending, st.y - gap, top) && AscendingYmin(st.pending)
    && ActiveBounded(st.active, st.y - gap, top)
  }

  /** The edges left pending start above the current scan line. */
  lemma {:induction false} PendingAfterStep(pending: seq<EdgeEntry>, y: real, gap: real, top: real)
    requires PendingBounded(pending, y - gap, top) && AscendingYmin(pending)
    ensures PendingBounded(pending[Started(pending, y)..], y, top)
    ensures AscendingYmin(pending[Started(pending, y)..])
  {
    var k := Started(pending, y);
    SuffixBounded(pending, k, y - gap, y, top);
    SuffixAscending(pending, k);
  }

  /** A suffix of an ascending run whose first entry starts above y is bounded below by y. */
  lemma SuffixBounded(pending: seq<EdgeEntry>, k: nat, lo: real, y: real, top: real)
    requires PendingBounded(pending, lo, top) && AscendingYmin(pending)
    requires k <= |pending| && (k < |pending| ==> pending[k].ymin > y)
    ensures PendingBounded(pending[k..], y, top)
  {
    var rest := pending[k..];
    forall i | 0 <= i < |rest| ensures y < rest[i].ymin < rest[i].ymax <= top {
      assert rest[i] == pending[k + i];
      assert pending[k].ymin <= pending[k + i].ymin;
    }
  }

  lemma SuffixAscending(pending: seq<EdgeEntry>, k: nat)
    requires AscendingYmin(pending) && k <= |pending|
    ensures AscendingYmin(pending[k..])
  {
    var rest := pending[k..];
    forall i, j | 0 <= i < j < |rest| ensures rest[i].ymin <= rest[j].ymin {
      assert rest[i] == pending[k + i] && rest[j] == pending[k + j];
    }
  }

  /** Edges joining the active set end by top, as all pending edges do. */
  lemma JoinedBounded(active: seq<ActiveEdge>, started: seq<EdgeEntry>, y: real, lo: real, top: real)
    requires ActiveBounded(active, lo, top) && PendingBounded(started, lo, top)
    ensures forall a | a in active + Activate(started, y) :: a.edge.ymax <= top
  {
    forall a | a in active + Activate(started, y) ensures a.edge.ymax <= top {
      if a !in active {
        var i :| 0 <= i < |started| && Activate(started, y)[i] == a;
      }
    }
  }

  /** After dropping finished edges, sorting and advancing, the active set
      ends above the scan line just filled. */
  lemma ActiveAfterStep(joined: seq<ActiveEdge>, y: real, gap: real, top: real)
    requires forall a | a in joined :: a.edge.ymax <= top
    ensures ActiveBounded(Advance(SortByX(Live(joined, y)), gap), y, top)
  {
    var sorted := SortByX(Live(joined, y));
    SortedLiveBounded(joined, y, top);
    AdvanceKeepsEnds(sorted, gap, y, top);
  }

  /** The live edges, sorted, end above y and by top. */
  lemma SortedLiveBounded(joined: seq<ActiveEdge>, y: real, top: real)
    requires forall a | a in joined :: a.edge.ymax <= top
    ensures ActiveBounded(SortByX(Live(joined, y)), y, top)
  {
    var live := Live(joined, y);
    var sorted := SortByX(live);
    forall a | a in sorted ensures y < a.edge.ymax <= top {
      assert a in multiset(sorted);
      assert a in live;
    }
  }

  /** Advancing moves x only, so the ends stay where they were. */
  lemma AdvanceKeepsEnds(s: seq<ActiveEdge>, gap: real, lo: real, top: real)
    requires ActiveBounded(s, lo, top)
    ensures ActiveBounded(Advance(s, gap), lo, top)
  {
    var r := Advance(s, gap);
    forall a | a in r ensures lo < a.edge.ymax <= top {
      var i :| 0 <= i < |r| && r[i] == a;
      assert s[i] in s;
    }
  }

  lemma StepKeepsInv(st: ScanState, gap: real, top: real)
    requires gap > 0.0 && Inv(st, gap, top)
    ensures Inv(Step(st, gap).0, gap, top)
  {
    var k := Started(st.pending, st.y);
    assert PendingBounded(st.pending[..k], st.y - gap, top);
    JoinedBounded(st.active, st.pending[..k], st.y, st.y - gap, top);
    ActiveAfterStep(st.active + Activate(st.pending[..k], st.y), st.y, gap, top);
    PendingAfterStep(st.pending, st.y, gap, top);
    assert st.y + gap - gap == st.y;
  }

  /** The termination measure of the sweep: y grows by gap >= 0.1 per
      iteration, and while anything is pending or active, y is below top + gap. */
  function Measure(st: ScanState, gap: real, top: real): real
  {
    10.0 * (top - st.y + gap)
  }

  lemma MeasureBounded(st: ScanState, gap: real, top: real)
    requires Inv(st, gap, top) && (st.pending != [] || st.active != [])
    ensures Measure(st, gap, top) > 0.0
  {
    if st.pending != [] {
      assert st.y - gap < st.pending[0].ymin < st.pending[0].ymax <= top;
    } else {
      assert st.active[0] in st.active;
      assert st.y - gap < st.active[0].edge.ymax <= top;
    }
  }

  /** The lines of the sweep from state st on. */
  function Sweep(st: ScanState, gap: real, top: real): seq<Line>
    requires gap >= 0.1 && Inv(st, gap, top)
    decreases Measure(st, gap, top)
  {
    if st.pending == [] && st.active == [] then []
    else
      MeasureBounded(st, gap, top);
      StepKeepsInv(st, gap, top);
      var (next, lines) := Step(st, gap);
      lines + Sweep(next, gap, top)
  }

  /** The largest ymax of an edge table. */
  function TopOf(edges: seq<EdgeEntry>): (t: real)
    requires edges != []
    ensures forall i | 0 <= i < |edges| :: edges[i].ymax <= t
  {
    if |edges| == 1 then edges[0].ymax else Max(edges[0].ymax, TopOf(edges[1..]))
  }

  /** The sorted table satisfies the sweep invariant with y at the first ymin. */
  lemma InitialInv(edges: seq<EdgeEntry>, table: seq<EdgeEntry>, gap: real)
    requires edges != [] && gap > 0.0 && EdgesSorted(edges) && multiset(edges) == multiset(table)
    requires forall i | 0 <= i < |table| :: table[i].ymin < table[i].ymax
    ensures Inv(ScanState(edges, [], edges[0].ymin), gap, TopOf(edges))
  {
    forall i | 0 <= i < |edges| ensures edges[i].ymin < edges[i].ymax {
      assert edges[i] in multiset(table);
    }
    forall i, j | 0 <= i < j < |edges| ensures edges[i].ymin <= edges[j].ymin {
      assert !EdgeLess(edges[j], edges[i]);
    }
  }

  /** What `straightHachureLines` computes. */
  function StraightHachure(points: seq<Point>, o: RoughOptions): seq<Line>
    requires points != []
  {
    var vertices := Close(points);
    if |vertices| <= 2 then [] else EdgeSweep(EdgeTable(vertices), Gap(o))
  }

  /** The sweep over the sorted edge table, from the lowest edge's ymin. */
  function EdgeSweep(table: seq<EdgeEntry>, gap: real): seq<Line>
    requires gap >= 0.1 && forall i | 0 <= i < |table| :: table[i].ymin < table[i].ymax
  {
    var edges := SortEdges(table);
    if edges == [] then []
    else
      InitialInv(edges, table, gap);
      Sweep(ScanState(edges, [], edges[0].ymin), gap, TopOf(edges))
  }

  /** One sweep from a non-empty state is its first step's lines, then the rest. */
  lemma SweepUnfolds(st: ScanState, gap: real, top: real)
    requires gap >= 0.1 && Inv(st, gap, top) && (st.pending != [] || st.active != [])
    ensures Inv(Step(st, gap).0, gap, top)
    ensures Sweep(st, gap, top) == Step(st, gap).1 + Sweep(Step(st, gap).0, gap, top)
  {
    StepKeepsInv(st, gap, top);
  }

  /** The body of the sweep loop: move the started edges, drop the finished
      ones, sort, fill between pairs, step y and the edges' x. */
  method SweepStep(edges: seq<EdgeEntry>, activeEdges: seq<ActiveEdge>, y: real, gap: real)
    returns (edges': seq<EdgeEntry>, activeEdges': seq<ActiveEdge>, y': real, emitted: seq<Line>)
    ensures (ScanState(edges', activeEdges', y'), emitted) == Step(ScanState(edges, activeEdges, y), gap)
  {
    var k := 0;
    if |edges| > 0 {
      k := StartedCount(edges, y);
    }
    var joined := activeEdges + Activate(edges[..k], y);
    edges' := edges[k..];
    var sorted := SortByX(Live(joined, y));
    emitted := FillBetween(sorted, y);
    y' := y + gap;
    activeEdges' := AdvanceEdges(sorted, gap);
    StepParts(ScanState(edges, activeEdges, y), gap, k, sorted);
  }

  /** `Step` in terms of its started count and its sorted live edges. */
  lemma {:induction false} StepParts(st: ScanState, gap: real, k: nat, sorted: seq<ActiveEdge>)
    requires k == Started(st.pending, st.y)
    requires sorted == SortByX(Live(st.active + Activate(st.pending[..k], st.y), st.y))
    ensures Step(st, gap) == (ScanState(st.pending[k..], Advance(sorted, gap), st.y + gap), PairLines(sorted, st.y))
  {
    var joined := st.active + Activate(st.pending[..k], st.y);
    assert sorted == SortByX(Live(joined, st.y));
    var r := Step(st, gap);
    assert r.1 == PairLines(sorted, st.y);
    assert r.0.y == st.y + gap;
    assert r.0.pending == st.pending[k..];
    assert r.0.active == Advance(sorted, gap);
    assert r.0 == ScanState(st.pending[k..], Advance(sorted, gap), st.y + gap);
  }

  /** The sweep loop of `straightHachureLines`, from the sorted edge table with
      y at its first ymin. */
  method RunSweep(sortedEdges: seq<EdgeEntry>, gap: real, ghost top: real) returns (lines: seq<Line>)
    requires sortedEdges != [] && gap >= 0.1
    requires Inv(ScanState(sortedEdges, [], sortedEdges[0].ymin), gap, top)
    ensures lines == Sweep(ScanState(sortedEdges, [], sortedEdges[0].ymin), gap, top)
  {
    lines := [];
    var edges := sortedEdges;
    var activeEdges: seq<ActiveEdge> := [];
    var y := edges[0].ymin;
    while activeEdges != [] || edges != []
      invariant Inv(ScanState(edges, activeEdges, y), gap, top)
      invariant Sweep(ScanState(sortedEdges, [], sortedEdges[0].ymin), gap, top)
        == lines + Sweep(ScanState(edges, activeEdges, y), gap, top)
      decreases Measure(ScanState(edges, activeEdges, y), gap, top)
    {
      ghost var st := ScanState(edges, activeEdges, y);
      MeasureBounded(st, gap, top);
      SweepUnfolds(st, gap, top);
      var emitted;
      edges, activeEdges, y, emitted := SweepStep(edges, activeEdges, y, gap);
      ghost var next := ScanState(edges, activeEdges, y);
      assert next == Step(st, gap).0 && emitted == Step(st, gap).1;
      ConcatAssoc(lines, emitted, Sweep(next, gap, top));
      lines := lines + emitted;
    }
  }

  /** `straightHachureLines`. The source closes the caller's vector in place;
      its only caller passes a copy, so the model closes a local sequence. */
  method StraightHachureLines(points: seq<Point>, o: RoughOptions) returns (lines: seq<Line>)
    requires points != []
    ensures lines == StraightHachure(points, o)
  {
    var vertices := points;
    if vertices[0] != vertices[|vertices| - 1] {
      vertices := vertices + [vertices[0]];
    }
    assert vertices == Close(points);
    lines := [];
    if |vertices| > 2 {
      var gap := o.hachureGap;
      if gap < 0.0 {
        gap := o.strokeWidth * 4.0;
      }
      gap := Max(gap, 0.1);
      assert gap == Gap(o);
      var table := BuildEdges(vertices);
      lines := SweepEdges(table, gap);
    }
  }

  /** Sort the edge table and run the sweep over it. */
  method SweepEdges(table: seq<EdgeEntry>, gap: real) returns (lines: seq<Line>)
    requires gap >= 0.1 && forall i | 0 <= i < |table| :: table[i].ymin < table[i].ymax
    ensures lines == EdgeSweep(table, gap)
  {
    lines := [];
    var edges := SortEdges(table);
    if |edges| == 0 {
      return;
    }
    InitialInv(edges, table, gap);
    lines := RunSweep(edges, gap, TopOf(edges));
  }

  // ---------------------------------------------------------------- properties of the sweep

  /** Horizontal lines, none below `y`, in non-decreasing height. */
  predicate RisingFrom(ls: seq<Line>, y: real)
  {
    (forall i | 0 <= i < |ls| :: ls[i].a.y == ls[i].b.y && ls[i].a.y >= y)
    && (forall i, j | 0 <= i < j < |ls| :: ls[i].a.y <= ls[j].a.y)
  }

  /** Lines at height y followed by lines rising from above y rise from y. */
  lemma RisingConcat(ls: seq<Line>, rest: seq<Line>, y: real, y': real)
    requires forall i | 0 <= i < |ls| :: ls[i].a.y == y && ls[i].b.y == y
    requires y <= y' && RisingFrom(rest, y')
    ensures RisingFrom(ls + rest, y)
  {
    var all := ls + rest;
    forall i, j | 0 <= i < j < |all| ensures all[i].a.y <= all[j].a.y {
      if j >= |ls| {
        assert all[j] == rest[j - |ls|];
        if i >= |ls| {
          assert all[i] == rest[i - |ls|];
        }
      }
    }
    forall i | 0 <= i < |all| ensures all[i].a.y == all[i].b.y && all[i].a.y >= y {
      if i >= |ls| {
        assert all[i] == rest[i - |ls|];
      }
    }
  }

  /** One step emits lines at its own y and moves y up by gap. */
  lemma StepEmitsAtY(st: ScanState, gap: real)
    ensures forall i | 0 <= i < |Step(st, gap).1| :: Step(st, gap).1[i].a.y == st.y && Step(st, gap).1[i].b.y == st.y
    ensures Step(st, gap).0.y == st.y + gap
  {
  }

  /** Every line of the sweep is horizontal, at or above the starting y, and
      the lines come in non-decreasing y. */
  lemma {:induction false} SweepOrdered(st: ScanState, gap: real, top: real)
    requires gap >= 0.1 && Inv(st, gap, top)
    ensures RisingFrom(Sweep(st, gap, top), st.y)
    decreases Measure(st, gap, top)
  {
    if st.pending != [] || st.active != [] {
      MeasureBounded(st, gap, top);
      SweepUnfolds(st, gap, top);
      var next := Step(st, gap).0;
      SweepOrdered(next, gap, top);
      StepEmitsAtY(st, gap);
      RisingConcat(Step(st, gap).1, Sweep(next, gap, top), st.y, next.y);
    }
  }

  /** The lines of `straightHachureLines` are horizontal and in non-decreasing y. */
  lemma HachureOrdered(points: seq<Point>, o: RoughOptions)
    requires points != []
    ensures var ls := StraightHachure(points, o);
      (forall i | 0 <= i < |ls| :: ls[i].a.y == ls[i].b.y)
      && (forall i, j | 0 <= i < j < |ls| :: ls[i].a.y <= ls[j].a.y)
  {
    var vertices := Close(points);
    if |vertices| > 2 {
      var table := EdgeTable(vertices);
      var edges := SortEdges(table);
      if edges != [] {
        InitialInv(edges, table, Gap(o));
        SweepOrdered(ScanState(edges, [], edges[0].ymin), Gap(o), TopOf(edges));
      }
    }
  }

  /** Fewer than three vertices after closing, or no sloped edge, give no lines. */
  lemma DegeneratePolygonHasNoHachure(points: seq<Point>, o: RoughOptions)
    requires points != []
    requires |Close(points)| <= 2 || forall i | 0 <= i < |Close(points)| - 1 :: Close(points)[i].y == Close(points)[i + 1].y
    ensures StraightHachure(points, o) == []
  {
    if |Close(points)| > 2 {
      FlatPolygonHasNoEdges(Close(points));
    }
  }

  // ---------------------------------------------------------------- rotation frame

  /** The rotation of one point about a centre by some degrees (trigonometry,
      supplied by the caller). */
  type Rotate = (Point, Point, real) -> Point

  function RotateAll(points: seq<Point>, center: Point, degrees: real, rotate: Rotate): (r: seq<Point>)
    ensures |r| == |points| && forall i | 0 <= i < |points| :: r[i] == rotate(points[i], center, degrees)
  {
    seq(|points|, i requires 0 <= i < |points| => rotate(points[i], center, degrees))
  }

  function RotateLines(lines: seq<Line>, center: Point, degrees: real, rotate: Rotate): (r: seq<Line>)
    ensures |r| == |lines|
    ensures forall i | 0 <= i < |lines| ::
      r[i] == Line(rotate(lines[i].a, center, degrees), rotate(lines[i].b, center, degrees))
  {
    seq(|lines|, i requires 0 <= i < |lines| =>
      Line(rotate(lines[i].a, center, degrees), rotate(lines[i].b, center, degrees)))
  }

  /** What `polygonHachureLines` computes: rotate by `angle` degrees about
      the origin unless it is 0, fill, rotate the lines back. */
  function PolygonHachure(points: seq<Point>, o: RoughOptions, angle: real, rotate: Rotate): seq<Line>
    requires points != []
  {
    var origin := Point(0.0, 0.0);
    if angle != 0.0 then
      RotateLines(StraightHachure(RotateAll(points, origin, angle, rotate), o), origin, -angle, rotate)
    else StraightHachure(points, o)
  }

  /** The rotation `polygonHachureLines` applies: round(hachureAngle + 90) degrees. */
  function HachureRotation(o: RoughOptions): real
  {
    Round(o.hachureAngle + 90.0)
  }

  /** `polygonHachureLines`. */
  method PolygonHachureLines(points: seq<Point>, o: RoughOptions, rotate: Rotate) returns (lines: seq<Line>)
    requires points != []
    ensures lines == PolygonHachure(points, o, HachureRotation(o), rotate)
  {
    var angle := HachureRotation(o);
    lines := RotatedHachure(points, o, angle, rotate);
  }

  method RotatedHachure(points: seq<Point>, o: RoughOptions, angle: real, rotate: Rotate) returns (lines: seq<Line>)
    requires points != []
    ensures lines == PolygonHachure(points, o, angle, rotate)
  {
    var origin := Point(0.0, 0.0);
    if angle != 0.0 {
      var rotated := RotateAll(points, origin, angle, rotate);
      var straight := StraightHachureLines(rotated, o);
      lines := RotateLines(straight, origin, -angle, rotate);
    } else {
      lines := StraightHachureLines(points, o);
    }
  }

  /** An angle of 0 (a hachure angle that rounds to -90 degrees) skips the
      rotation: the lines are the horizontal scan lines, whatever the
      rotation is. */
  lemma UnrotatedHachure(points: seq<Point>, o: RoughOptions, rotate: Rotate)
    requires points != []
    ensures PolygonHachure(points, o, 0.0, rotate) == StraightHachure(points, o)
    ensures forall i | 0 <= i < |PolygonHachure(points, o, 0.0, rotate)| ::
      PolygonHachure(points, o, 0.0, rotate)[i].a.y == PolygonHachure(points, o, 0.0, rotate)[i].b.y
  {
    HachureOrdered(points, o);
  }

  /** With a rotation, the lines are the scan lines of the rotated polygon,
      each end rotated back. */
  lemma RotatedHachureLines(points: seq<Point>, o: RoughOptions, angle: real, rotate: Rotate)
    requires points != [] && angle != 0.0
    ensures var straight := StraightHachure(RotateAll(points, Point(0.0, 0.0), angle, rotate), o);
      var ls := PolygonHachure(points, o, angle, rotate);
      |ls| == |straight|
      && forall i | 0 <= i < |ls| ::
        ls[i].a == rotate(straight[i].a, Point(0.0, 0.0), -angle)
        && ls[i].b == rotate(straight[i].b, Point(0.0, 0.0), -angle)
        && straight[i].a.y == straight[i].b.y
  {
    HachureOrdered(RotateAll(points, Point(0.0, 0.0), angle, rotate), o);
  }
}
