/** Reduction of absolute path segments to M, L, C and Z
    (src/PathDataParser/Normalize.cpp).

    The loop keeps the current point, the subpath start, the last control point
    `(lcx, lcy)` and the key of the previous segment.  H and V become lines, S and
    T reflect the previous control point, Q and T are raised to cubics, and an arc
    is handed to an arc approximation that this model takes as a parameter. */
module Normalize {
  import opened Core
  import opened Parser
  import opened Absolutize

  /** A cubic's six numbers `x1 y1 x2 y2 x y`. */
  type Curve = s: seq<real> | |s| == 6 witness [0.0, 0.0, 0.0, 0.0, 0.0, 0.0]

  /** The arguments of `arcToCubicCurves(cx, cy, x, y, r1, r2, angle, largeArc, sweep)`. */
  datatype ArcRequest = ArcRequest(
    x1: real, y1: real, x2: real, y2: real, r1: real, r2: real, angle: real,
    largeArc: bool, sweep: bool)

  /** The trigonometric arc approximation, which this model does not open. */
  type ArcToCubics = ArcRequest -> seq<Curve>

  /** The variables of the source loop; `lastType` starts as the NUL character. */
  datatype NormState = NormState(
    cx: real, cy: real, subx: real, suby: real, lcx: real, lcy: real, lastType: char)

  const Start := NormState(0.0, 0.0, 0.0, 0.0, 0.0, 0.0, 0 as char)

  /** The curves of an arc, each as a C segment. */
  function CurveSegments(curves: seq<Curve>): (r: seq<Segment>)
    ensures |r| == |curves|
    ensures forall k :: 0 <= k < |r| ==> r[k] == Segment('C', curves[k])
  {
    if curves == [] then [] else [Segment('C', curves[0])] + CurveSegments(curves[1..])
  }

  /** The control point that starts a smooth continuation: the previous control
      point reflected through the current point when `smooth`, else the current point. */
  function Reflected(st: NormState, smooth: bool): (real, real)
  {
    if smooth then (st.cx + (st.cx - st.lcx), st.cy + (st.cy - st.lcy)) else (st.cx, st.cy)
  }

  /** The cubic with the same shape as the quadratic from `(x0, y0)` via `(x1, y1)` to `(x, y)`. */
  function Elevated(x0: real, y0: real, x1: real, y1: real, x: real, y: real): Curve
  {
    [x0 + 2.0 * (x1 - x0) / 3.0, y0 + 2.0 * (y1 - y0) / 3.0,
     x + 2.0 * (x1 - x) / 3.0, y + 2.0 * (y1 - y) / 3.0, x, y]
  }

  /** The `switch` of one iteration: the new state (before `lastType` is set) and
      what it appends to `out`. */
  function Switch(st: NormState, seg: Segment, arc: ArcToCubics): (NormState, seq<Segment>)
    requires WellFormed(seg)
  {
    var d := seg.data;
    match seg.key
    case 'M' => (st.(cx := d[0], cy := d[1], subx := d[0], suby := d[1]), [seg])
    case 'C' => (st.(cx := d[4], cy := d[5], lcx := d[2], lcy := d[3]), [seg])
    case 'L' => (st.(cx := d[0], cy := d[1]), [seg])
    case 'H' => (st.(cx := d[0]), [Segment('L', [d[0], st.cy])])
    case 'V' => (st.(cy := d[0]), [Segment('L', [st.cx, d[0]])])
    case 'S' =>
      var (x1, y1) := Reflected(st, st.lastType == 'C' || st.lastType == 'S');
      (st.(lcx := d[0], lcy := d[1], cx := d[2], cy := d[3]), [Segment('C', [x1, y1, d[0], d[1], d[2], d[3]])])
    case 'T' =>
      var (x1, y1) := Reflected(st, st.lastType == 'Q' || st.lastType == 'T');
      (st.(lcx := x1, lcy := y1, cx := d[0], cy := d[1]), [Segment('C', Elevated(st.cx, st.cy, x1, y1, d[0], d[1]))])
    case 'Q' =>
      (st.(lcx := d[0], lcy := d[1], cx := d[2], cy := d[3]), [Segment('C', Elevated(st.cx, st.cy, d[0], d[1], d[2], d[3]))])
    case 'A' =>
      var r1 := Abs(d[0]);
      var r2 := Abs(d[1]);
      if r1 == 0.0 || r2 == 0.0 then
        (st.(cx := d[5], cy := d[6]), [Segment('C', [st.cx, st.cy, d[5], d[6], d[5], d[6]])])
      else if st.cx != d[5] || st.cy != d[6] then
        var curves := arc(ArcRequest(st.cx, st.cy, d[5], d[6], r1, r2, d[2], d[3] > 0.5, d[4] > 0.5));
        (st.(cx := d[5], cy := d[6]), CurveSegments(curves))
      else (st, [])
    case 'Z' => (st.(cx := st.subx, cy := st.suby), [Segment('Z', [])])
    case _ => (st, [])
  }

  /** One iteration of the loop: the switch, then `lastType = segment.key`. */
  function NStep(st: NormState, seg: Segment, arc: ArcToCubics): (NormState, seq<Segment>)
    requires WellFormed(seg)
  {
    var (st', ys) := Switch(st, seg, arc);
    (st'.(lastType := seg.key), ys)
  }

  predicate IsNormalKey(c: char) { c in {'M', 'L', 'C', 'Z'} }

  /** Only M, L, C and Z come out, each with the length of data its key needs. */
  predicate IsNormal(segs: seq<Segment>)
  {
    forall i :: 0 <= i < |segs| ==> IsNormalKey(segs[i].key) && WellFormed(segs[i])
  }

  lemma SwitchKeys(st: NormState, seg: Segment, arc: ArcToCubics)
    requires WellFormed(seg)
    ensures IsNormal(Switch(st, seg, arc).1)
  {
    if seg.key == 'A' {
      var d := seg.data;
      CurvesAreNormal(arc(ArcRequest(st.cx, st.cy, d[5], d[6], Abs(d[0]), Abs(d[1]), d[2], d[3] > 0.5, d[4] > 0.5)));
    }
  }

  lemma NormalConcat(a: seq<Segment>, b: seq<Segment>)
    requires IsNormal(a) && IsNormal(b)
    ensures IsNormal(a + b)
  {
    assert forall i | 0 <= i < |a + b| :: (a + b)[i] == if i < |a| then a[i] else b[i - |a|];
  }

  /** What the loop appends from state `st` on. */
  function NormFrom(st: NormState, segs: seq<Segment>, arc: ArcToCubics): (r: seq<Segment>)
    requires AllWellFormed(segs)
    ensures IsNormal(r)
    decreases |segs|
  {
    if segs == [] then []
    else
      var (st', ys) := NStep(st, segs[0], arc);
      SwitchKeys(st, segs[0], arc);
      var rest := NormFrom(st', segs[1..], arc);
      NormalConcat(ys, rest);
      ys + rest
  }

  /** What `normalize` returns. */
  function Normalized(segs: seq<Segment>, arc: ArcToCubics): (r: seq<Segment>)
    requires AllWellFormed(segs)
    ensures IsNormal(r)
  {
    NormFrom(Start, segs, arc)
  }

  /** The body of the `normalize` loop: the `switch` on the key, updating the seven
      loop variables and appending to `out`. */
  method NormalizeSegment(st: NormState, seg: Segment, arc: ArcToCubics, out0: seq<Segment>)
    returns (st': NormState, out: seq<Segment>)
    requires WellFormed(seg)
    ensures st' == NStep(st, seg, arc).0 && out == out0 + NStep(st, seg, arc).1
  {
    var cx, cy, subx, suby, lcx, lcy := st.cx, st.cy, st.subx, st.suby, st.lcx, st.lcy;
    var lastType := st.lastType;
    var data := seg.data;
    out := out0;
    match seg.key {
      case 'M' =>
        out := out + [Segment('M', data)];
        cx, cy := data[0], data[1];
        subx, suby := data[0], data[1];
      case 'C' =>
        out := out + [Segment('C', data)];
        cx := data[4];
        cy := data[5];
        lcx := data[2];
        lcy := data[3];
      case 'L' =>
        out := out + [Segment('L', data)];
        cx, cy := data[0], data[1];
      case 'H' =>
        cx := data[0];
        out := out + [Segment('L', [cx, cy])];
      case 'V' =>
        cy := data[0];
        out := out + [Segment('L', [cx, cy])];
      case 'S' =>
        var cx1, cy1 := 0.0, 0.0;
        if lastType == 'C' || lastType == 'S' {
          cx1 := cx + (cx - lcx);
          cy1 := cy + (cy - lcy);
        } else {
          cx1 := cx;
          cy1 := cy;
        }
        out := out + [Segment('C', [cx1, cy1, data[0], data[1], data[2], data[3]])];
        lcx := data[0];
        lcy := data[1];
        cx := data[2];
        cy := data[3];
      case 'T' =>
        var x, y := data[0], data[1];
        var x1, y1 := 0.0, 0.0;
        if lastType == 'Q' || lastType == 'T' {
          x1 := cx + (cx - lcx);
          y1 := cy + (cy - lcy);
        } else {
          x1 := cx;
          y1 := cy;
        }
        var cx1 := cx + 2.0 * (x1 - cx) / 3.0;
        var cy1 := cy + 2.0 * (y1 - cy) / 3.0;
        var cx2 := x + 2.0 * (x1 - x) / 3.0;
        var cy2 := y + 2.0 * (y1 - y) / 3.0;
        out := out + [Segment('C', [cx1, cy1, cx2, cy2, x, y])];
        lcx := x1;
        lcy := y1;
        cx := x;
        cy := y;
      case 'Q' =>
        var x1, y1, x, y := data[0], data[1], data[2], data[3];
        var cx1 := cx + 2.0 * (x1 - cx) / 3.0;
        var cy1 := cy + 2.0 * (y1 - cy) / 3.0;
        var cx2 := x + 2.0 * (x1 - x) / 3.0;
        var cy2 := y + 2.0 * (y1 - y) / 3.0;
        out := out + [Segment('C', [cx1, cy1, cx2, cy2, x, y])];
        lcx := x1;
        lcy := y1;
        cx := x;
        cy := y;
      case 'A' =>
        var r1 := Abs(data[0]);
        var r2 := Abs(data[1]);
        var angle := data[2];
        var largeArcFlag := data[3] > 0.5;
        var sweepFlag := data[4] > 0.5;
        var x := data[5];
        var y := data[6];
        if r1 == 0.0 || r2 == 0.0 {
          out := out + [Segment('C', [cx, cy, x, y, x, y])];
          cx := x;
          cy := y;
        } else if cx != x || cy != y {
          var curves := arc(ArcRequest(cx, cy, x, y, r1, r2, angle, largeArcFlag, sweepFlag));
          out := AppendCurves(out, curves);
          cx := x;
          cy := y;
        }
      case 'Z' =>
        out := out + [Segment('Z', [])];
        cx := subx;
        cy := suby;
      case _ =>
    }
    lastType := seg.key;
    st' := NormState(cx, cy, subx, suby, lcx, lcy, lastType);
  }

  lemma CurveSegmentsAppend(curves: seq<Curve>, c: Curve)
    ensures CurveSegments(curves + [c]) == CurveSegments(curves) + [Segment('C', c)]
  {
    var l := CurveSegments(curves + [c]);
    var r := CurveSegments(curves) + [Segment('C', c)];
    assert |l| == |r|;
    forall k | 0 <= k < |l| ensures l[k] == r[k] {
      if k < |curves| {
        assert (curves + [c])[k] == curves[k];
      } else {
        assert (curves + [c])[k] == c;
      }
    }
  }

  /** The loop over an arc's curves: each is appended as a C segment. */
  method AppendCurves(out0: seq<Segment>, curves: seq<Curve>) returns (out: seq<Segment>)
    ensures out == out0 + CurveSegments(curves)
  {
    out := out0;
    for k := 0 to |curves|
      invariant out == out0 + CurveSegments(curves[..k])
    {
      CurveSegmentsTake(curves, k, out0);
      out := out + [Segment('C', curves[k])];
    }
    TakeAll(curves);
  }

  /** One more curve of an arc appends one more C segment. */
  lemma CurveSegmentsTake(curves: seq<Curve>, k: nat, out0: seq<Segment>)
    requires k < |curves|
    ensures out0 + CurveSegments(curves[..k + 1]) == (out0 + CurveSegments(curves[..k])) + [Segment('C', curves[k])]
  {
    TakeSnoc(curves, k);
    CurveSegmentsAppend(curves[..k], curves[k]);
  }

  /** The segments of an arc's curves are all normal C segments. */
  lemma CurvesAreNormal(curves: seq<Curve>)
    ensures IsNormal(CurveSegments(curves))
  {
  }

  lemma NormFromStep(st: NormState, segs: seq<Segment>, arc: ArcToCubics, done: seq<Segment>)
    requires segs != [] && AllWellFormed(segs)
    ensures done + NormFrom(st, segs, arc) ==
      (done + NStep(st, segs[0], arc).1) + NormFrom(NStep(st, segs[0], arc).0, segs[1..], arc)
  {
    var ys := NStep(st, segs[0], arc).1;
    var rest := NormFrom(NStep(st, segs[0], arc).0, segs[1..], arc);
    ConcatAssoc(done, ys, rest);
  }

  /** `normalize`: one loop over the segments. */
  method NormalizePath(segments: seq<Segment>, arc: ArcToCubics) returns (out: seq<Segment>)
    requires AllWellFormed(segments)
    ensures out == Normalized(segments, arc)
  {
    var st := Start;
    out := [];
    var i := 0;
    assert segments[0..] == segments;
    while i < |segments|
      invariant 0 <= i <= |segments|
      invariant Normalized(segments, arc) == out + NormFrom(st, segments[i..], arc)
    {
      ghost var rest := segments[i..];
      ghost var out0 := out;
      ghost var before := st;
      assert rest[0] == segments[i] && rest[1..] == segments[i + 1..];
      st, out := NormalizeSegment(st, segments[i], arc, out);
      NormFromStep(before, rest, arc, out0);
      i := i + 1;
      assert segments[i..] == rest[1..];
    }
    assert segments[i..] == [];
  }

  // ---------------------------------------------------------------- properties

  /** M, L, C and Z pass through unchanged, from any state. */
  lemma {:induction false} NormFromKeepsNormal(st: NormState, segs: seq<Segment>, arc: ArcToCubics)
    requires IsNormal(segs)
    ensures AllWellFormed(segs) && NormFrom(st, segs, arc) == segs
    decreases |segs|
  {
    if segs != [] {
      assert IsNormal(segs[1..]) by {
        assert forall k | 0 <= k < |segs| - 1 :: segs[1..][k] == segs[k + 1];
      }
      NormalPassesThrough(st, segs[0], arc);
      NormFromKeepsNormal(NStep(st, segs[0], arc).0, segs[1..], arc);
      assert [segs[0]] + segs[1..] == segs;
    }
  }

  /** One M, L, C or Z comes out as it went in. */
  lemma NormalPassesThrough(st: NormState, seg: Segment, arc: ArcToCubics)
    requires IsNormalKey(seg.key) && WellFormed(seg)
    ensures NStep(st, seg, arc).1 == [seg]
  {
  }

  /** Normalizing already-normalized input returns it unchanged, so `normalize` is
      idempotent. */
  lemma NormalizeIdempotent(segs: seq<Segment>, arc: ArcToCubics)
    requires AllWellFormed(segs)
    ensures AllWellFormed(Normalized(segs, arc))
    ensures Normalized(Normalized(segs, arc), arc) == Normalized(segs, arc)
  {
    NormFromKeepsNormal(Start, Normalized(segs, arc), arc);
  }

  /** H and V become a line that keeps the other coordinate of the current point. */
  lemma HorizontalVerticalAsLines(st: NormState, seg: Segment, arc: ArcToCubics)
    requires WellFormed(seg) && (seg.key == 'H' || seg.key == 'V')
    ensures var (st', ys) := NStep(st, seg, arc);
      ys == [Segment('L', [st'.cx, st'.cy])] &&
      (if seg.key == 'H' then st'.cx == seg.data[0] && st'.cy == st.cy
       else st'.cx == st.cx && st'.cy == seg.data[0])
  {
  }

  /** S right after a C (or S) starts with the previous segment's second control point
      mirrored through the joint, so the tangent is continuous there; after any other
      key its first control point is the current point. */
  lemma SmoothCubicReflects(st: NormState, prev: Segment, s: Segment, arc: ArcToCubics)
    requires WellFormed(prev) && IsCommandKey(prev.key) && s.key == 'S' && WellFormed(s)
    ensures var (st1, _) := NStep(st, prev, arc);
      var ys := NStep(st1, s, arc).1;
      |ys| == 1 && ys[0].key == 'C' && ys[0].data[2..] == s.data &&
      (if prev.key in {'C', 'S'} then
         // the previous segment's second control point and end point
         var k := if prev.key == 'C' then 2 else 0;
         st1.cx == prev.data[k + 2] && st1.cy == prev.data[k + 3] &&
         ys[0].data[0] - st1.cx == st1.cx - prev.data[k] && ys[0].data[1] - st1.cy == st1.cy - prev.data[k + 1]
       else ys[0].data[0] == st1.cx && ys[0].data[1] == st1.cy)
  {
    var st1 := NStep(st, prev, arc).0;
    var ys := NStep(st1, s, arc).1;
    assert ys[0].data[2..] == s.data;
  }

  /** A T right after a Q mirrors the Q's control point through the joint, and the
      cubic it emits is the degree elevation of that reflected quadratic. */
  lemma SmoothQuadraticReflects(st: NormState, q: Segment, t: Segment, arc: ArcToCubics)
    requires q.key == 'Q' && WellFormed(q) && t.key == 'T' && WellFormed(t)
    ensures var (st1, _) := NStep(st, q, arc);
      var ys := NStep(st1, t, arc).1;
      var (ex, ey) := (q.data[2], q.data[3]);
      ys == [Segment('C', Elevated(ex, ey, 2.0 * ex - q.data[0], 2.0 * ey - q.data[1], t.data[0], t.data[1]))]
  {
  }

  /** T after anything but Q or T has the current point as its implied control point. */
  lemma LoneQuadraticTurnsStraight(st: NormState, t: Segment, arc: ArcToCubics)
    requires t.key == 'T' && WellFormed(t) && st.lastType != 'Q' && st.lastType != 'T'
    ensures NStep(st, t, arc).1 == [Segment('C', Elevated(st.cx, st.cy, st.cx, st.cy, t.data[0], t.data[1]))]
  {
  }

  /** Q becomes C with c1 = cur + 2(q - cur)/3 and c2 = end + 2(q - end)/3, and the
      current point moves to the end. */
  lemma QuadraticBecomesCubic(st: NormState, q: Segment, arc: ArcToCubics)
    requires q.key == 'Q' && WellFormed(q)
    ensures var (st', ys) := NStep(st, q, arc);
      |ys| == 1 && ys[0].key == 'C' && |ys[0].data| == 6 &&
      ys[0].data[0] == st.cx + 2.0 * (q.data[0] - st.cx) / 3.0 &&
      ys[0].data[1] == st.cy + 2.0 * (q.data[1] - st.cy) / 3.0 &&
      ys[0].data[2] == q.data[2] + 2.0 * (q.data[0] - q.data[2]) / 3.0 &&
      ys[0].data[3] == q.data[3] + 2.0 * (q.data[1] - q.data[3]) / 3.0 &&
      ys[0].data[4..] == q.data[2..] && st'.cx == q.data[2] && st'.cy == q.data[3]
  {
    var ys := NStep(st, q, arc).1;
    assert ys[0].data[4..] == q.data[2..];
  }

  /** One coordinate of a quadratic Bezier at parameter `t`. */
  function Quadratic(a: real, b: real, c: real, t: real): real
  {
    (1.0 - t) * (1.0 - t) * a + 2.0 * (1.0 - t) * t * b + t * t * c
  }

  /** One coordinate of a cubic Bezier at parameter `t`. */
  function Cubic(a: real, b: real, c: real, d: real, t: real): real
  {
    (1.0 - t) * (1.0 - t) * (1.0 - t) * a + 3.0 * (1.0 - t) * (1.0 - t) * t * b
      + 3.0 * (1.0 - t) * t * t * c + t * t * t * d
  }

  /** The degree elevation is exact: the cubic passes through the same points as the
      quadratic, for every parameter value. */
  lemma ElevationIsExact(x0: real, y0: real, x1: real, y1: real, x: real, y: real, t: real)
    ensures var e := Elevated(x0, y0, x1, y1, x, y);
      Cubic(x0, e[0], e[2], e[4], t) == Quadratic(x0, x1, x, t) &&
      Cubic(y0, e[1], e[3], e[5], t) == Quadratic(y0, y1, y, t)
  {
  }

  /** Arcs: a zero radius gives a degenerate cubic straight to the end point; an end
      point equal to the current point gives nothing and keeps the state; otherwise
      the curves of the arc approximation are emitted as C segments. */
  lemma ArcCases(st: NormState, a: Segment, arc: ArcToCubics)
    requires a.key == 'A' && WellFormed(a)
    ensures var (st', ys) := NStep(st, a, arc);
      var (x, y) := (a.data[5], a.data[6]);
      if a.data[0] == 0.0 || a.data[1] == 0.0 then
        ys == [Segment('C', [st.cx, st.cy, x, y, x, y])] && st'.cx == x && st'.cy == y
      else if st.cx == x && st.cy == y then
        ys == [] && st' == st.(lastType := 'A')
      else
        var curves := arc(ArcRequest(st.cx, st.cy, x, y, Abs(a.data[0]), Abs(a.data[1]), a.data[2],
          a.data[3] > 0.5, a.data[4] > 0.5));
        |ys| == |curves| && (forall k :: 0 <= k < |ys| ==> ys[k] == Segment('C', curves[k])) &&
        st'.cx == x && st'.cy == y
  {
  }

  /** Z emits an empty Z and moves the current point back to the subpath start; only
      M moves the subpath start, to its own point. */
  lemma CloseReturnsToSubpathStart(st: NormState, seg: Segment, arc: ArcToCubics)
    requires WellFormed(seg)
    ensures var (st', ys) := NStep(st, seg, arc);
      (seg.key == 'Z' ==> ys == [Segment('Z', [])] && st'.cx == st.subx && st'.cy == st.suby) &&
      (seg.key == 'M' ==> st'.subx == seg.data[0] && st'.suby == seg.data[1]) &&
      (seg.key != 'M' ==> st'.subx == st.subx && st'.suby == st.suby) &&
      st'.lastType == seg.key
  {
  }
}
