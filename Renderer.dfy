/** The stroke synthesizer of src/Renderer.cpp.

    Every drawing operation sends moveTo / lineTo / bezierCurveTo calls to a
    `Graphics` sink and consumes successive results of the C library `rand()`.
    The sink is modelled as the sequence of calls made so far and `rand()` as an
    injected stream read at a cursor, so each operation is a function from the
    cursor position and its arguments to the calls it makes and the new cursor
    (`Draw`); the `Renderer` class performs them step by step. */
module Renderer {
  import opened Core
  import opened Parser
  import opened Absolutize
  import opened Normalize
  import PointsOnPath

  /** A call on the sink interface of src/Renderer.h:12-18. */
  datatype Op =
    | MoveTo(x: real, y: real)
    | LineTo(x: real, y: real)
    | BezierCurveTo(x1: real, y1: real, x2: real, y2: real, x: real, y: real)

  /** The library functions the renderer calls: `rand` maps n to the result of
      the n-th `rand()` call, `sqrt` is the square root. */
  datatype Env = Env(rand: nat -> nat, sqrt: real -> real)

  /** The calls an operation makes and the `rand()` cursor after it. */
  datatype Draw = Draw(ops: seq<Op>, next: nat)

  /** One drawing after another: the second starts where the first left the cursor. */
  function Then(d: Draw, e: Draw): Draw
  {
    Draw(d.ops + e.ops, e.next)
  }

  // ---------------------------------------------------------------- random values

  /** `randomWithOptions` at cursor k: `(rand() % 10000) / 10000.0`, a whole
      number of ten-thousandths between 0 and 0.9999. */
  function RandomValue(env: Env, k: nat): (r: real)
    ensures 0.0 <= r <= 0.9999
  {
    (env.rand(k) % 10000) as real / 10000.0
  }

  /** `randomWithOptions` yields whole ten-thousandths: ten thousand times the
      value is the drawn number modulo 10000. */
  lemma RandomValueIsTenThousandths(env: Env, k: nat)
    ensures RandomValue(env, k) * 10000.0 == (env.rand(k) % 10000) as real
  {
    var n := env.rand(k) % 10000;
    assert (n as real / 10000.0) * 10000.0 == n as real;
  }

  /** `offset(min, max, o, gain)` at cursor k: roughness * gain times a value
      drawn from [min, max). */
  function OffsetValue(env: Env, k: nat, min: real, max: real, o: RoughOptions, gain: real): real
  {
    o.roughness * gain * (RandomValue(env, k) * (max - min) + min)
  }

  /** With min <= max and a non-negative scale, `offset` stays in the scaled range. */
  lemma OffsetValueBetween(env: Env, k: nat, min: real, max: real, o: RoughOptions, gain: real)
    ensures var r := OffsetValue(env, k, min, max, o, gain);
      min <= max && o.roughness * gain >= 0.0 ==> (o.roughness * gain) * min <= r <= (o.roughness * gain) * max
  {
    var u := RandomValue(env, k);
    var c := o.roughness * gain;
    var v := (u * (max - min)) + min;
    OffsetBetween(c, u, min, max, v, OffsetValue(env, k, min, max, o, gain));
  }

  lemma OffsetBetween(c: real, u: real, min: real, max: real, v: real, r: real)
    requires 0.0 <= u <= 1.0 && v == (u * (max - min)) + min && r == c * v
    ensures min <= max && c >= 0.0 ==> c * min <= r <= c * max
  {
    if min <= max && c >= 0.0 {
      NonNegativeProduct(u, max - min);
      NonNegativeProduct(1.0 - u, max - min);
      assert min <= v <= max;
      NonNegativeProduct(c, v - min);
      NonNegativeProduct(c, max - v);
    }
  }

  lemma NonNegativeProduct(a: real, b: real)
    requires a >= 0.0 && b >= 0.0
    ensures a * b >= 0.0
  {
    var p := Product(a, b);
  }

  /** The largest magnitude of `offsetOpt(x, o, gain)`: |roughness * gain * x|. */
  function JitterBound(o: RoughOptions, gain: real, x: real): real
  {
    Abs(o.roughness * gain * x)
  }

  /** `offsetOpt(x, o, gain)` at cursor k: a jitter of magnitude at most
      |roughness * gain * x|. */
  function OffsetOptValue(env: Env, k: nat, x: real, o: RoughOptions, gain: real): real
  {
    OffsetValue(env, k, -x, x, o, gain)
  }

  /** `offsetOpt(x, o, gain)` never exceeds |roughness * gain * x|. */
  lemma OffsetOptBounded(env: Env, k: nat, x: real, o: RoughOptions, gain: real)
    ensures Abs(OffsetOptValue(env, k, x, o, gain)) <= JitterBound(o, gain, x)
  {
    var u := RandomValue(env, k);
    var c := o.roughness * gain;
    assert OffsetOptValue(env, k, x, o, gain) == c * (u * (x - -x) + -x);
    SymmetricOffset(c, u, x);
    ScaledByUnit(c * x, 2.0 * u - 1.0);
  }

  /** A value drawn from [-x, x) is x times a factor in [-1, 1). */
  lemma SymmetricOffset(c: real, u: real, x: real)
    ensures c * (u * (x - -x) + -x) == (c * x) * (2.0 * u - 1.0)
  {
  }

  /** A factor of magnitude at most 1 does not grow a value. */
  lemma ScaledByUnit(a: real, t: real)
    requires -1.0 <= t <= 1.0
    ensures Abs(a * t) <= Abs(a)
  {
    if a >= 0.0 {
      NonNegativeProduct(a, 1.0 - t);
      NonNegativeProduct(a, 1.0 + t);
    } else {
      NonNegativeProduct(-a, 1.0 - t);
      NonNegativeProduct(-a, 1.0 + t);
    }
  }

  /** A point moved by two successive `offsetOpt(offset, o)` jitters. */
  function JitterPoint(env: Env, k: nat, p: Point, offset: real, o: RoughOptions): Point
  {
    Point(p.x + OffsetOptValue(env, k, offset, o, 1.0), p.y + OffsetOptValue(env, k + 1, offset, o, 1.0))
  }

  /** A jittered point stays within the jitter bound of the original in each coordinate. */
  lemma JitterPointNear(env: Env, k: nat, p: Point, offset: real, o: RoughOptions)
    ensures Near(JitterPoint(env, k, p, offset, o), p, JitterBound(o, 1.0, offset))
  {
    OffsetOptBounded(env, k, offset, o, 1.0);
    OffsetOptBounded(env, k + 1, offset, o, 1.0);
  }

  // ---------------------------------------------------------------- one line pass

  /** The roughness gain of a line of the given length. */
  function RoughnessGain(length: real): (g: real)
    ensures length < 200.0 ==> g == 1.0
    ensures length > 500.0 ==> g == 0.4
    ensures 0.3999 <= g <= 1.0
  {
    if length < 200.0 then 1.0
    else if length > 500.0 then 0.4
    else (-0.0016668) * length + 1.233334
  }

  /** The jitter of a line pass: `maxRandomnessOffset`, cut to a tenth of the
      length when it is larger than that. */
  function JitterLimit(maxOffset: real, length: real, lengthSq: real): real
  {
    if maxOffset * maxOffset * 100.0 > lengthSq then length / 10.0 else maxOffset
  }

  /** With `length` the square root of `lengthSq`, the jitter never exceeds a
      tenth of the length or the configured offset, and is that offset when
      the line is long enough. */
  lemma JitterIsClamped(maxOffset: real, length: real, lengthSq: real)
    requires length >= 0.0 && length * length == lengthSq
    ensures Abs(JitterLimit(maxOffset, length, lengthSq)) <= length / 10.0
    ensures Abs(JitterLimit(maxOffset, length, lengthSq)) <= Abs(maxOffset)
    ensures maxOffset * maxOffset * 100.0 <= lengthSq ==> JitterLimit(maxOffset, length, lengthSq) == maxOffset
  {
    var j := JitterLimit(maxOffset, length, lengthSq);
    if maxOffset * maxOffset * 100.0 > lengthSq {
      assert Sq(length / 10.0) * 100.0 == lengthSq;
      SquareOrder(length / 10.0, maxOffset);
    } else {
      assert Sq(maxOffset) * 100.0 <= Sq(length);
      assert Sq(maxOffset) <= Sq(length / 10.0);
      SquareOrder(maxOffset, length / 10.0);
    }
  }

  /** Comparing magnitudes through squares. */
  lemma SquareOrder(a: real, b: real)
    ensures Sq(a) <= Sq(b) ==> Abs(a) <= Abs(b)
    ensures Sq(a) < Sq(b) ==> Abs(a) < Abs(b)
  {
    if Abs(a) > Abs(b) {
      var p := Product(Abs(a) - Abs(b), Abs(a) + Abs(b));
      assert Sq(a) - Sq(b) == p;
    } else if Abs(a) == Abs(b) {
      assert Sq(a) == Product(Abs(a), Abs(a)) == Sq(b);
    }
  }

  /** The squared length of the line between integer points. */
  function LengthSq(x1: int, y1: int, x2: int, y2: int): (r: real)
    ensures r >= 0.0
    ensures r == 0.0 <==> x1 == x2 && y1 == y2
  {
    Sq((x1 - x2) as real) + Sq((y1 - y2) as real)
  }

  /** The jitter used by one pass: the overlay pass uses half. */
  function PassJitter(env: Env, x1: int, y1: int, x2: int, y2: int, o: RoughOptions, overlay: bool): real
  {
    var lengthSq := LengthSq(x1, y1, x2, y2);
    var jitter := JitterLimit(o.maxRandomnessOffset, env.sqrt(lengthSq), lengthSq);
    if overlay then jitter / 2.0 else jitter
  }

  function PassGain(env: Env, x1: int, y1: int, x2: int, y2: int): real
  {
    RoughnessGain(env.sqrt(LengthSq(x1, y1, x2, y2)))
  }

  /** The largest jitter a pass may add to a coordinate. */
  function PassBound(env: Env, x1: int, y1: int, x2: int, y2: int, o: RoughOptions, overlay: bool): real
  {
    JitterBound(o, PassGain(env, x1, y1, x2, y2), PassJitter(env, x1, y1, x2, y2, o, overlay))
  }

  /** The moveTo of a pass, at cursor k. */
  function PassStart(env: Env, k: nat, x1: real, y1: real, pass: real, o: RoughOptions, gain: real): (op: Op)
    ensures op.MoveTo?
  {
    MoveTo(x1 + OffsetOptValue(env, k, pass, o, gain), y1 + OffsetOptValue(env, k + 1, pass, o, gain))
  }

  /** The bezier of a pass with its bowing already drawn, at cursor b: the two
      controls at one and two times the diverge point along the line. */
  function PassCurve(env: Env, b: nat, x1: real, y1: real, x2: real, y2: real, midDispX: real, midDispY: real,
                     divergePoint: real, pass: real, o: RoughOptions, gain: real): (op: Op)
    ensures op.BezierCurveTo?
  {
    BezierCurveTo(
      midDispX + x1 + (x2 - x1) * divergePoint + OffsetOptValue(env, b, pass, o, gain),
      midDispY + y1 + (y2 - y1) * divergePoint + OffsetOptValue(env, b + 1, pass, o, gain),
      midDispX + x1 + 2.0 * (x2 - x1) * divergePoint + OffsetOptValue(env, b + 2, pass, o, gain),
      midDispY + y1 + 2.0 * (y2 - y1) * divergePoint + OffsetOptValue(env, b + 3, pass, o, gain),
      x2 + OffsetOptValue(env, b + 4, pass, o, gain),
      y2 + OffsetOptValue(env, b + 5, pass, o, gain))
  }

  /** `privateLine` at cursor k: an optional jittered moveTo to the start and
      one bowed bezier to the jittered end. Nine `rand()` results are used for
      the curve and two more for the move. */
  function PrivateLineDraw(env: Env, k: nat, x1: int, y1: int, x2: int, y2: int, o: RoughOptions, move: bool, overlay: bool): (d: Draw)
    ensures |d.ops| == (if move then 2 else 1) && d.next == k + (if move then 11 else 9)
    ensures move ==> d.ops[0].MoveTo?
    ensures d.ops[|d.ops| - 1].BezierCurveTo?
  {
    var gain := PassGain(env, x1, y1, x2, y2);
    var pass := PassJitter(env, x1, y1, x2, y2, o, overlay);
    var divergePoint := DivergePoint(RandomValue(env, k));
    var midDispX := OffsetOptValue(env, k + 1, Bowing(o, y2 - y1), o, gain);
    var midDispY := OffsetOptValue(env, k + 2, Bowing(o, x1 - x2), o, gain);
    if move then
      Draw([PassStart(env, k + 3, x1 as real, y1 as real, pass, o, gain),
            PassCurve(env, k + 5, x1 as real, y1 as real, x2 as real, y2 as real, midDispX, midDispY, divergePoint, pass, o, gain)], k + 11)
    else
      Draw([PassCurve(env, k + 3, x1 as real, y1 as real, x2 as real, y2 as real, midDispX, midDispY, divergePoint, pass, o, gain)], k + 9)
  }

  /** A pass of `privateLine` starts within its jitter of (x1, y1) and ends
      within it of (x2, y2). */
  lemma PrivateLineStaysNear(env: Env, k: nat, x1: int, y1: int, x2: int, y2: int, o: RoughOptions, move: bool, overlay: bool)
    ensures var d := PrivateLineDraw(env, k, x1, y1, x2, y2, o, move, overlay);
      var bound := PassBound(env, x1, y1, x2, y2, o, overlay);
      && (move ==> Near(Point(d.ops[0].x, d.ops[0].y), Point(x1 as real, y1 as real), bound))
      && Near(Point(d.ops[|d.ops| - 1].x, d.ops[|d.ops| - 1].y), Point(x2 as real, y2 as real), bound)
  {
    PrivateLineUnfolds(env, k, x1, y1, x2, y2, o, move, overlay);
    var gain, pass := PassGain(env, x1, y1, x2, y2), PassJitter(env, x1, y1, x2, y2, o, overlay);
    var b := if move then k + 5 else k + 3;
    OffsetOptBounded(env, b + 4, pass, o, gain);
    OffsetOptBounded(env, b + 5, pass, o, gain);
    if move {
      OffsetOptBounded(env, k + 3, pass, o, gain);
      OffsetOptBounded(env, k + 4, pass, o, gain);
    }
  }

  /** Where along the line `privateLine` puts its controls: between 0.2 and 0.4. */
  function DivergePoint(r: real): real
  {
    0.2 + r * 0.2
  }

  /** The bowing displacement `privateLine` offsets its controls by, before jitter. */
  function Bowing(o: RoughOptions, d: int): real
  {
    o.bowing * o.maxRandomnessOffset * d as real / 200.0
  }

  /** The calls of `privateLine`, pass by pass. */
  lemma PrivateLineUnfolds(env: Env, k: nat, x1: int, y1: int, x2: int, y2: int, o: RoughOptions, move: bool, overlay: bool)
    ensures var gain, pass := PassGain(env, x1, y1, x2, y2), PassJitter(env, x1, y1, x2, y2, o, overlay);
      var midDispX := OffsetOptValue(env, k + 1, Bowing(o, y2 - y1), o, gain);
      var midDispY := OffsetOptValue(env, k + 2, Bowing(o, x1 - x2), o, gain);
      var curve := PassCurve(env, if move then k + 5 else k + 3, x1 as real, y1 as real, x2 as real, y2 as real,
        midDispX, midDispY, DivergePoint(RandomValue(env, k)), pass, o, gain);
      PrivateLineDraw(env, k, x1, y1, x2, y2, o, move, overlay).ops
        == if move then [PassStart(env, k + 3, x1 as real, y1 as real, pass, o, gain), curve] else [curve]
  {
  }

  /** The roughness gain lies between 0.3999 and 1 and is 1 for short lines
      and 0.4 for long ones; in between it falls linearly. */
  lemma GainFallsWithLength(l1: real, l2: real)
    requires 200.0 <= l1 <= l2 <= 500.0
    ensures RoughnessGain(l2) <= RoughnessGain(l1) <= RoughnessGain(199.0)
  {
  }

  // ---------------------------------------------------------------- double lines

  /** C++ conversion of a double to `int`: truncation toward zero. */
  function Trunc(x: real): (t: int)
    ensures Abs(t as real) <= Abs(x) && Abs(x - t as real) < 1.0
    ensures x >= 0.0 ==> t >= 0
    ensures x <= 0.0 ==> t <= 0
  {
    if x >= 0.0 then FloorOf(x) else -FloorOf(-x)
  }

  function FloorOf(x: real): (t: int)
    requires x >= 0.0
    ensures 0 <= t && t as real <= x < t as real + 1.0
  {
    x.Floor
  }

  /** Whole numbers pass through the conversion unchanged. */
  lemma TruncKeepsIntegers(n: int)
    ensures Trunc(n as real) == n
  {
    if n < 0 {
      assert FloorOf(-(n as real)) == -n;
    }
  }

  /** Whether a line is drawn once: `disableMultiStrokeFill` when filling,
      otherwise `disableMultiStroke`, each tested as non-zero. */
  predicate SingleStroke(o: RoughOptions, filling: bool)
  {
    if filling then o.disableMultiStrokeFill != 0.0 else o.disableMultiStroke != 0.0
  }

  /** `doubleLine`: one pass with full jitter and, unless single-stroked, an
      overlay pass with half jitter, both between the truncated coordinates. */
  function DoubleLineDraw(env: Env, k: nat, x1: real, y1: real, x2: real, y2: real, o: RoughOptions, filling: bool): (d: Draw)
    ensures |d.ops| == (if SingleStroke(o, filling) then 2 else 4)
    ensures d.next == k + (if SingleStroke(o, filling) then 11 else 22)
    ensures d.ops[0].MoveTo? && d.ops[1].BezierCurveTo?
    ensures !SingleStroke(o, filling) ==> d.ops[2].MoveTo? && d.ops[3].BezierCurveTo?
  {
    var a, b, c, e := Trunc(x1), Trunc(y1), Trunc(x2), Trunc(y2);
    var first := PrivateLineDraw(env, k, a, b, c, e, o, true, false);
    if SingleStroke(o, filling) then first
    else Then(first, PrivateLineDraw(env, first.next, a, b, c, e, o, true, true))
  }

  /** How one line is drawn at a cursor. */
  type LineDrawer = (nat, Line) -> Draw

  /** Each line drawn in turn, each starting where the previous left the cursor. */
  function DrawEach(draw: LineDrawer, k: nat, lines: seq<Line>): Draw
    decreases |lines|
  {
    if lines == [] then Draw([], k)
    else
      var first := draw(k, lines[0]);
      Then(first, DrawEach(draw, first.next, lines[1..]))
  }

  /** Every line takes `per` calls and `step` rand() results. */
  ghost predicate Uniform(draw: LineDrawer, per: nat, step: nat)
  {
    forall j: nat, l: Line :: |draw(j, l).ops| == per && draw(j, l).next == j + step
  }

  /** Drawing two lists of lines is drawing the first, then the second from
      where the first left the cursor. */
  lemma {:induction false} DrawEachAppend(draw: LineDrawer, k: nat, a: seq<Line>, b: seq<Line>)
    ensures DrawEach(draw, k, a + b) == Then(DrawEach(draw, k, a), DrawEach(draw, DrawEach(draw, k, a).next, b))
    decreases |a|
  {
    if a != [] {
      assert (a + b)[1..] == a[1..] + b;
      DrawEachAppend(draw, draw(k, a[0]).next, a[1..], b);
    } else {
      assert a + b == b;
    }
  }

  /** With a uniform drawer the whole takes per * n calls and step * n results. */
  lemma {:induction false} DrawEachSize(draw: LineDrawer, per: nat, step: nat, k: nat, lines: seq<Line>)
    requires Uniform(draw, per, step)
    ensures |DrawEach(draw, k, lines).ops| == per * |lines|
    ensures DrawEach(draw, k, lines).next == k + step * |lines|
    decreases |lines|
  {
    if lines != [] {
      DrawEachSize(draw, per, step, k + step, lines[1..]);
      assert per * |lines| == per + per * (|lines| - 1);
      assert step * |lines| == step + step * (|lines| - 1);
    }
  }

  /** The i-th line is drawn after the lines before it, from cursor k + step * i. */
  lemma DrawEachSplit(draw: LineDrawer, per: nat, step: nat, k: nat, lines: seq<Line>, i: nat)
    requires Uniform(draw, per, step) && i < |lines|
    ensures DrawEach(draw, k, lines).ops
      == DrawEach(draw, k, lines[..i]).ops + draw(k + step * i, lines[i]).ops
         + DrawEach(draw, k + step * i + step, lines[i + 1..]).ops
    ensures |DrawEach(draw, k, lines[..i]).ops| == per * i
  {
    var before, rest := lines[..i], lines[i..];
    assert lines == before + rest;
    DrawEachAppend(draw, k, before, rest);
    DrawEachSize(draw, per, step, k, before);
    assert rest == [lines[i]] + lines[i + 1..];
    DrawEachAppend(draw, k + step * i, [lines[i]], lines[i + 1..]);
    assert DrawEach(draw, k + step * i, [lines[i]]) == Then(draw(k + step * i, lines[i]), Draw([], k + step * i + step));
  }

  /** `doubleLine` as a drawer of lines. */
  function DoubleLines(env: Env, o: RoughOptions, filling: bool): LineDrawer
  {
    (j: nat, l: Line) => DoubleLineDraw(env, j, l.a.x, l.a.y, l.b.x, l.b.y, o, filling)
  }

  /** Calls and rand() results per doubled line. */
  function CallsPerLine(o: RoughOptions, filling: bool): nat
  {
    if SingleStroke(o, filling) then 2 else 4
  }

  function DrawsPerLine(o: RoughOptions, filling: bool): nat
  {
    if SingleStroke(o, filling) then 11 else 22
  }

  lemma DoubleLinesUniform(env: Env, o: RoughOptions, filling: bool)
    ensures Uniform(DoubleLines(env, o, filling), CallsPerLine(o, filling), DrawsPerLine(o, filling))
  {
  }

  /** Appending the calls of b after those of a appends the calls of c = a then b. */
  lemma Extend(ops0: seq<Op>, a: Draw, b: Draw, c: Draw)
    requires c.ops == a.ops + b.ops
    ensures ops0 + a.ops + b.ops == ops0 + c.ops
  {
  }

  /** Drawing one more line appends its calls. */
  lemma DrawEachSnoc(draw: LineDrawer, k: nat, lines: seq<Line>, l: Line)
    ensures DrawEach(draw, k, lines + [l]).ops == DrawEach(draw, k, lines).ops + draw(DrawEach(draw, k, lines).next, l).ops
    ensures DrawEach(draw, k, lines + [l]).next == draw(DrawEach(draw, k, lines).next, l).next
  {
    DrawEachAppend(draw, k, lines, [l]);
    var j := DrawEach(draw, k, lines).next;
    assert DrawEach(draw, j, [l]) == Then(draw(j, l), DrawEach(draw, draw(j, l).next, []));
  }

  /** One more doubled line: its calls follow the earlier ones. */
  lemma SnocDoubleLine(env: Env, o: RoughOptions, filling: bool, k: nat, done: seq<Line>, l: Line)
    ensures var j := DrawEach(DoubleLines(env, o, filling), k, done).next;
      var d := DoubleLineDraw(env, j, l.a.x, l.a.y, l.b.x, l.b.y, o, filling);
      && DrawEach(DoubleLines(env, o, filling), k, done + [l]).ops == DrawEach(DoubleLines(env, o, filling), k, done).ops + d.ops
      && DrawEach(DoubleLines(env, o, filling), k, done + [l]).next == d.next
  {
    DrawEachSnoc(DoubleLines(env, o, filling), k, done, l);
  }

  // ---------------------------------------------------------------- polylines

  /** Consecutive vertex pairs as lines. */
  function Chain(points: seq<Point>): (ls: seq<Line>)
    requires points != []
    ensures |ls| == |points| - 1
    ensures forall i | 0 <= i < |ls| :: ls[i] == Line(points[i], points[i + 1])
  {
    seq(|points| - 1, i requires 0 <= i < |points| - 1 => Line(points[i], points[i + 1]))
  }

  /** The lines `linearPath` draws: the chain of more than two vertices plus
      the closing line when asked for, the single line of two vertices, and
      nothing for fewer. */
  function PathLines(points: seq<Point>, close: bool): (ls: seq<Line>)
    ensures |points| > 2 ==> |ls| == |points| - 1 + (if close then 1 else 0)
    ensures |points| == 2 ==> ls == [Line(points[0], points[1])]
    ensures |points| < 2 ==> ls == []
  {
    if |points| > 2 then
      Chain(points) + (if close then [Line(points[|points| - 1], points[0])] else [])
    else if |points| == 2 then [Line(points[0], points[1])]
    else []
  }

  /** The path starts at the first vertex, each line starts where the last
      ended, every line joins its two consecutive vertices, and a closed path
      of more than two vertices ends where it began. */
  lemma PathIsConnected(points: seq<Point>, close: bool)
    requires |points| >= 2
    ensures var ls := PathLines(points, close);
      ls[0].a == points[0]
      && (forall i | 0 <= i < |ls| - 1 :: ls[i].b == ls[i + 1].a)
      && (forall i | 0 <= i < |points| - 1 :: ls[i] == Line(points[i], points[i + 1]))
      && (|points| > 2 && close ==> ls[|ls| - 1].b == points[0])
      && (!close || |points| == 2 ==> ls[|ls| - 1].b == points[|points| - 1])
  {
  }

  /** The corners of `rectangle`, counter-clockwise from (x, y) in the source's
      axis orientation. */
  function RectangleCorners(x: real, y: real, width: real, height: real): seq<Point>
  {
    [Point(x, y), Point(x + width, y), Point(x + width, y + height), Point(x, y + height)]
  }

  /** A rectangle is its four sides, the last back to the start. */
  lemma RectangleSides(x: real, y: real, width: real, height: real)
    ensures PathLines(RectangleCorners(x, y, width, height), true) == [
      Line(Point(x, y), Point(x + width, y)),
      Line(Point(x + width, y), Point(x + width, y + height)),
      Line(Point(x + width, y + height), Point(x, y + height)),
      Line(Point(x, y + height), Point(x, y))]
  {
  }

  // ---------------------------------------------------------------- curves

  /** One Catmull-Rom segment of `curve` from points[i] to points[i + 1], with
      tightness factor s. */
  function CurveStep(points: seq<Point>, i: nat, s: real): Op
    requires 1 <= i && i + 2 < |points|
  {
    var p0, p1, p2, p3 := points[i - 1], points[i], points[i + 1], points[i + 2];
    BezierCurveTo(
      p1.x + (s * p2.x - s * p0.x) / 6.0, p1.y + (s * p2.y - s * p0.y) / 6.0,
      p2.x + (s * p1.x - s * p3.x) / 6.0, p2.y + (s * p1.y - s * p3.y) / 6.0,
      p2.x, p2.y)
  }

  /** The beziers of `curve` for four or more points: one per inner pair. */
  function CatmullRom(points: seq<Point>, s: real): (ops: seq<Op>)
    requires |points| > 3
    ensures |ops| == |points| - 3
    ensures forall j | 0 <= j < |ops| :: ops[j] == CurveStep(points, j + 1, s)
  {
    seq(|points| - 3, j requires 0 <= j < |points| - 3 => CurveStep(points, j + 1, s))
  }

  /** The Catmull-Rom beziers interpolate: the j-th ends at points[j + 2], the
      next starts there, and the two controls around that point are mirror
      images through it, so the curve has no corners. The first controls lean
      along the chord from points[i - 1] to points[i + 1] by s / 6. */
  lemma CatmullRomIsSmooth(points: seq<Point>, s: real, j: nat)
    requires |points| > 3 && j + 1 < |points| - 3
    ensures var ops := CatmullRom(points, s);
      ops[j].x == points[j + 2].x && ops[j].y == points[j + 2].y
      && ops[j].x2 + ops[j + 1].x1 == 2.0 * points[j + 2].x
      && ops[j].y2 + ops[j + 1].y1 == 2.0 * points[j + 2].y
      && ops[j + 1].x1 - points[j + 2].x == s * (points[j + 3].x - points[j + 1].x) / 6.0
      && ops[j + 1].y1 - points[j + 2].y == s * (points[j + 3].y - points[j + 1].y) / 6.0
  {
    var ops := CatmullRom(points, s);
    assert ops[j] == CurveStep(points, j + 1, s);
    assert ops[j + 1] == CurveStep(points, j + 2, s);
    StepsMeet(points, j + 2, s);
  }

  /** The two Catmull-Rom steps that meet at points[i]. */
  lemma StepsMeet(points: seq<Point>, i: nat, s: real)
    requires 2 <= i && i + 2 < |points|
    ensures var before, after := CurveStep(points, i - 1, s), CurveStep(points, i, s);
      before.x == points[i].x && before.y == points[i].y
      && before.x2 + after.x1 == 2.0 * points[i].x
      && before.y2 + after.y1 == 2.0 * points[i].y
      && after.x1 - points[i].x == s * (points[i + 1].x - points[i - 1].x) / 6.0
      && after.y1 - points[i].y == s * (points[i + 1].y - points[i - 1].y) / 6.0
  {
    MirroredControls(points[i - 1].x, points[i].x, points[i + 1].x, s);
    MirroredControls(points[i - 1].y, points[i].y, points[i + 1].y, s);
  }

  /** One coordinate of the controls on either side of b, with neighbours a and c. */
  lemma MirroredControls(a: real, b: real, c: real, s: real)
    ensures (b + (s * a - s * c) / 6.0) + (b + (s * c - s * a) / 6.0) == 2.0 * b
    ensures (b + (s * c - s * a) / 6.0) - b == s * (c - a) / 6.0
  {
  }

  /** `curve(points, closePoint, o)`: from four points on, a moveTo to
      points[1], the Catmull-Rom beziers with s = 1 - curveTightness and, when
      a close point is given, a jittered lineTo to it; three points give one
      bezier from points[1] to points[2]; two points a doubled line. */
  function CurveDraw(env: Env, k: nat, points: seq<Point>, closePoint: Option<Point>, o: RoughOptions): (d: Draw)
    ensures |points| > 3 ==> (|d.ops| == |points| - 2 + (if closePoint.Some? then 1 else 0)
      && d.next == k + (if closePoint.Some? then 2 else 0))
    ensures |points| == 3 ==> d == Draw([MoveTo(points[1].x, points[1].y),
      BezierCurveTo(points[1].x, points[1].y, points[2].x, points[2].y, points[2].x, points[2].y)], k)
    ensures |points| == 2 ==> d == DoubleLineDraw(env, k, points[0].x, points[0].y, points[1].x, points[1].y, o, false)
    ensures |points| < 2 ==> d == Draw([], k)
  {
    if |points| > 3 then
      var body := [MoveTo(points[1].x, points[1].y)] + CatmullRom(points, 1.0 - o.curveTightness);
      match closePoint
      case None => Draw(body, k)
      case Some(c) =>
        var q := JitterPoint(env, k, c, o.maxRandomnessOffset, o);
        Draw(body + [LineTo(q.x, q.y)], k + 2)
    else if |points| == 3 then
      Draw([MoveTo(points[1].x, points[1].y),
        BezierCurveTo(points[1].x, points[1].y, points[2].x, points[2].y, points[2].x, points[2].y)], k)
    else if |points| == 2 then
      DoubleLineDraw(env, k, points[0].x, points[0].y, points[1].x, points[1].y, o, false)
    else Draw([], k)
  }

  /** From four points on, `curve` moves to points[1], draws the Catmull-Rom
      beziers with s = 1 - curveTightness, and ends with a lineTo near the
      close point when one is given. */
  lemma CurveDrawShape(env: Env, k: nat, points: seq<Point>, closePoint: Option<Point>, o: RoughOptions)
    requires |points| > 3
    ensures var d := CurveDraw(env, k, points, closePoint, o);
      && d.ops[0] == MoveTo(points[1].x, points[1].y)
      && d.ops[1..|points| - 2] == CatmullRom(points, 1.0 - o.curveTightness)
      && (closePoint.Some? ==> (d.ops[|d.ops| - 1].LineTo?
        && Near(Point(d.ops[|d.ops| - 1].x, d.ops[|d.ops| - 1].y), closePoint.value, JitterBound(o, 1.0, o.maxRandomnessOffset))))
  {
    var body := [MoveTo(points[1].x, points[1].y)] + CatmullRom(points, 1.0 - o.curveTightness);
    assert body[1..|points| - 2] == CatmullRom(points, 1.0 - o.curveTightness);
    if closePoint.Some? {
      JitterPointNear(env, k, closePoint.value, o.maxRandomnessOffset, o);
    }
  }

  /** p lies within `bound` of q in each coordinate. */
  predicate Near(p: Point, q: Point, bound: real)
  {
    Abs(p.x - q.x) <= bound && Abs(p.y - q.y) <= bound
  }

  /** The jittered copies of points[1..m + 1] that `curveWithOffset` adds in
      its loop, two rand() results each, after the four of the doubled start. */
  function InnerJitter(env: Env, k: nat, points: seq<Point>, offset: real, o: RoughOptions, m: nat): (r: seq<Point>)
    requires m < |points|
    ensures |r| == m
    ensures forall j | 0 <= j < m :: r[j] == JitterPoint(env, k + 4 + 2 * j, points[j + 1], offset, o)
  {
    seq(m, j requires 0 <= j < m => JitterPoint(env, k + 4 + 2 * j, points[j + 1], offset, o))
  }

  /** Jittering one more point appends its jittered copy. */
  lemma InnerJitterSnoc(env: Env, k: nat, points: seq<Point>, offset: real, o: RoughOptions, m: nat)
    requires 1 <= m < |points|
    ensures InnerJitter(env, k, points, offset, o, m)
      == InnerJitter(env, k, points, offset, o, m - 1) + [JitterPoint(env, k + 4 + 2 * (m - 1), points[m], offset, o)]
  {
    var r := InnerJitter(env, k, points, offset, o, m);
    assert r == r[..m - 1] + [r[m - 1]];
    assert r[..m - 1] == InnerJitter(env, k, points, offset, o, m - 1);
  }

  /** The control points `curveWithOffset` builds: the first point jittered
      twice, every later point jittered, and the last one jittered once more. */
  function CurvePoints(env: Env, k: nat, points: seq<Point>, offset: real, o: RoughOptions): (ps: seq<Point>)
    requires points != []
    ensures |ps| == if |points| == 1 then 2 else |points| + 2
  {
    var n := |points|;
    var head := [JitterPoint(env, k, points[0], offset, o), JitterPoint(env, k + 2, points[0], offset, o)];
    if n == 1 then head
    else head + InnerJitter(env, k, points, offset, o, n - 1) + [JitterPoint(env, k + 2 * n + 2, points[n - 1], offset, o)]
  }

  /** Every control point of `curveWithOffset` lies within the jitter bound of
      the point it copies: the first point twice, then each point in order,
      then the last point once more. */
  lemma CurvePointsNear(env: Env, k: nat, points: seq<Point>, offset: real, o: RoughOptions)
    requires points != []
    ensures var ps := CurvePoints(env, k, points, offset, o);
      var bound := JitterBound(o, 1.0, offset);
      && Near(ps[0], points[0], bound) && Near(ps[1], points[0], bound)
      && (forall j | 2 <= j <= |points| :: Near(ps[j], points[j - 1], bound))
      && (|points| >= 2 ==> Near(ps[|points| + 1], points[|points| - 1], bound))
  {
    var n := |points|;
    JitterPointNear(env, k, points[0], offset, o);
    JitterPointNear(env, k + 2, points[0], offset, o);
    if n > 1 {
      var ps := CurvePoints(env, k, points, offset, o);
      var inner := InnerJitter(env, k, points, offset, o, n - 1);
      forall j | 2 <= j <= n
        ensures Near(ps[j], points[j - 1], JitterBound(o, 1.0, offset))
      {
        assert ps[j] == inner[j - 2];
        JitterPointNear(env, k + 4 + 2 * (j - 2), points[j - 1], offset, o);
      }
      JitterPointNear(env, k + 2 * n + 2, points[n - 1], offset, o);
    }
  }

  /** The cursor after `curveWithOffset`'s control points. */
  function CurvePointsNext(k: nat, n: nat): nat
  {
    if n <= 1 then k + 4 else k + 2 * n + 4
  }

  /** The cursor after `curveWithOffset`: its control points, and the doubled
      line that two control points make. */
  function CurveWithOffsetNext(k: nat, n: nat, o: RoughOptions): nat
  {
    if n <= 1 then k + 4 + DrawsPerLine(o, false) else k + 2 * n + 4
  }

  /** `curveWithOffset`: the jittered control points drawn as one curve. */
  function CurveWithOffsetDraw(env: Env, k: nat, points: seq<Point>, offset: real, o: RoughOptions): (d: Draw)
    requires points != []
    ensures d.next == CurveWithOffsetNext(k, |points|, o)
  {
    CurveDraw(env, CurvePointsNext(k, |points|), CurvePoints(env, k, points, offset, o), None, o)
  }

  /** With two or more points the curve of `curveWithOffset` starts near the
      first point and has one bezier per later point, each ending near it. */
  lemma CurveFollowsPoints(env: Env, k: nat, points: seq<Point>, offset: real, o: RoughOptions)
    requires |points| >= 2
    ensures var d := CurveWithOffsetDraw(env, k, points, offset, o);
      var bound := JitterBound(o, 1.0, offset);
      |d.ops| == |points| && d.ops[0].MoveTo? && Near(Point(d.ops[0].x, d.ops[0].y), points[0], bound)
      && forall j | 1 <= j < |points| :: d.ops[j].BezierCurveTo? && Near(Point(d.ops[j].x, d.ops[j].y), points[j], bound)
  {
    var ps := CurvePoints(env, k, points, offset, o);
    CurvePointsNear(env, k, points, offset, o);
    CurveThroughControls(env, CurvePointsNext(k, |points|), ps, o, points, JitterBound(o, 1.0, offset));
  }

  /** The open curve through control points ps, each within `bound` of the
      matching point of `points`, shifted by one. */
  lemma CurveThroughControls(env: Env, k: nat, ps: seq<Point>, o: RoughOptions, points: seq<Point>, bound: real)
    requires |points| >= 2 && |ps| == |points| + 2
    requires Near(ps[1], points[0], bound)
    requires forall j | 2 <= j <= |points| :: Near(ps[j], points[j - 1], bound)
    ensures var d := CurveDraw(env, k, ps, None, o);
      |d.ops| == |points| && d.ops[0].MoveTo? && Near(Point(d.ops[0].x, d.ops[0].y), points[0], bound)
      && forall j | 1 <= j < |points| :: d.ops[j].BezierCurveTo? && Near(Point(d.ops[j].x, d.ops[j].y), points[j], bound)
  {
    var d := CurveDraw(env, k, ps, None, o);
    var s := 1.0 - o.curveTightness;
    CurveDrawShape(env, k, ps, None, o);
    forall j | 1 <= j < |points|
      ensures d.ops[j].BezierCurveTo? && Near(Point(d.ops[j].x, d.ops[j].y), points[j], bound)
    {
      assert d.ops[j] == CatmullRom(ps, s)[j - 1];
      assert d.ops[j] == CurveStep(ps, j, s);
    }
  }

  /** `curve(points, o)`: the curve with offset 1 + roughness / 5 and, unless
      `disableMultiStroke`, once more with offset 1.5 (1 + 0.22 roughness).
      The second pass uses `cloneOptionsAlterSeed(o)`, which returns o. */
  function RoughCurveDraw(env: Env, k: nat, points: seq<Point>, o: RoughOptions): Draw
    requires points != []
  {
    Strokes(o, CurveWithOffsetDraw(env, k, points, FirstStrokeOffset(o), o),
            CurveWithOffsetDraw(env, CurveWithOffsetNext(k, |points|, o), points, SecondStrokeOffset(o), o))
  }

  /** The offsets of the two strokes of `curve(points, o)`. */
  function FirstStrokeOffset(o: RoughOptions): real
  {
    1.0 * (1.0 + o.roughness * 0.2)
  }

  function SecondStrokeOffset(o: RoughOptions): real
  {
    1.5 * (1.0 + o.roughness * 0.22)
  }

  /** The first stroke alone when `disableMultiStroke`, otherwise both in turn. */
  function Strokes(o: RoughOptions, first: Draw, second: Draw): (d: Draw)
    ensures o.disableMultiStroke != 0.0 ==> d == first
    ensures o.disableMultiStroke == 0.0 ==> d.ops == first.ops + second.ops && d.next == second.next
  {
    if o.disableMultiStroke != 0.0 then first else Then(first, second)
  }

  /** Calls appended by the first stroke and then by the second are the calls of `curve`. */
  lemma RoughCurveAfterStrokes(env: Env, k: nat, points: seq<Point>, o: RoughOptions,
                               ops0: seq<Op>, ops1: seq<Op>, ops2: seq<Op>, next: nat)
    requires points != [] && o.disableMultiStroke == 0.0
    requires ops1 == ops0 + CurveWithOffsetDraw(env, k, points, FirstStrokeOffset(o), o).ops
    requires ops2 == ops1 + CurveWithOffsetDraw(env, CurveWithOffsetNext(k, |points|, o), points, SecondStrokeOffset(o), o).ops
    requires next == CurveWithOffsetNext(CurveWithOffsetNext(k, |points|, o), |points|, o)
    ensures ops2 == ops0 + RoughCurveDraw(env, k, points, o).ops
    ensures next == RoughCurveDraw(env, k, points, o).next
  {
    var first := CurveWithOffsetDraw(env, k, points, FirstStrokeOffset(o), o);
    var second := CurveWithOffsetDraw(env, CurveWithOffsetNext(k, |points|, o), points, SecondStrokeOffset(o), o);
    Extend(ops0, first, second, RoughCurveDraw(env, k, points, o));
  }

  /** With multi-stroke off, `curve(points, o)` is its first stroke alone. */
  lemma RoughCurveSingle(env: Env, k: nat, points: seq<Point>, o: RoughOptions, ops0: seq<Op>, ops1: seq<Op>, next: nat)
    requires points != [] && o.disableMultiStroke != 0.0
    requires ops1 == ops0 + CurveWithOffsetDraw(env, k, points, FirstStrokeOffset(o), o).ops
    requires next == CurveWithOffsetNext(k, |points|, o)
    ensures ops1 == ops0 + RoughCurveDraw(env, k, points, o).ops
    ensures next == RoughCurveDraw(env, k, points, o).next
  {
  }

  // ---------------------------------------------------------------- bezierTo

  /** Iteration i of `bezierTo`: a moveTo to the current point (jittered by
      maxRandomnessOffset after the first iteration) and a bezier whose
      points are jittered by `ros[i]`, maxRandomnessOffset plus 0.3 on the
      second iteration. */
  function BezierPass(env: Env, k: nat, i: nat, x1: real, y1: real, x2: real, y2: real, x: real, y: real,
                      current: Point, o: RoughOptions): (d: Draw)
    requires i < 2
    ensures |d.ops| == 2 && d.ops[0].MoveTo? && d.ops[1].BezierCurveTo?
    ensures d.next == k + (if i == 0 then 6 else 8)
    ensures i == 0 ==> d.ops[0] == MoveTo(current.x, current.y)
  {
    var ro := if i == 0 then o.maxRandomnessOffset else o.maxRandomnessOffset + 0.3;
    var start := if i == 0 then current else JitterPoint(env, k, current, o.maxRandomnessOffset, o);
    var j := if i == 0 then k else k + 2;
    var f := JitterPoint(env, j, Point(x, y), ro, o);
    var c1 := JitterPoint(env, j + 2, Point(x1, y1), ro, o);
    var c2 := JitterPoint(env, j + 4, Point(x2, y2), ro, o);
    Draw([MoveTo(start.x, start.y), BezierCurveTo(c1.x, c1.y, c2.x, c2.y, f.x, f.y)], j + 6)
  }

  /** After the first iteration the moveTo is within maxRandomnessOffset's
      jitter of the current point; the bezier always ends within the
      iteration's jitter of (x, y). */
  lemma BezierPassNear(env: Env, k: nat, i: nat, x1: real, y1: real, x2: real, y2: real, x: real, y: real,
                       current: Point, o: RoughOptions)
    requires i < 2
    ensures var d := BezierPass(env, k, i, x1, y1, x2, y2, x, y, current, o);
      && (i == 1 ==> Near(Point(d.ops[0].x, d.ops[0].y), current, JitterBound(o, 1.0, o.maxRandomnessOffset)))
      && Near(Point(d.ops[1].x, d.ops[1].y), Point(x, y),
        JitterBound(o, 1.0, if i == 0 then o.maxRandomnessOffset else o.maxRandomnessOffset + 0.3))
  {
    var ro := if i == 0 then o.maxRandomnessOffset else o.maxRandomnessOffset + 0.3;
    var j := if i == 0 then k else k + 2;
    JitterPointNear(env, j, Point(x, y), ro, o);
    if i == 1 {
      JitterPointNear(env, k, current, o.maxRandomnessOffset, o);
    }
  }

  /** The first n iterations of `bezierTo`. */
  function BezierPasses(env: Env, k: nat, n: nat, x1: real, y1: real, x2: real, y2: real, x: real, y: real,
                        current: Point, o: RoughOptions): Draw
    requires n <= 2
  {
    if n == 0 then Draw([], k)
    else
      var first := BezierPass(env, k, 0, x1, y1, x2, y2, x, y, current, o);
      if n == 1 then first else Then(first, BezierPass(env, first.next, 1, x1, y1, x2, y2, x, y, current, o))
  }

  /** `bezierTo`: one iteration when `disableMultiStroke`, otherwise two; the
      first starts exactly at the current point. */
  function BezierToDraw(env: Env, k: nat, x1: real, y1: real, x2: real, y2: real, x: real, y: real,
                        current: Point, o: RoughOptions): (d: Draw)
    ensures |d.ops| == (if o.disableMultiStroke != 0.0 then 2 else 4)
    ensures d.next == k + (if o.disableMultiStroke != 0.0 then 6 else 14)
    ensures d.ops[0] == MoveTo(current.x, current.y) && d.ops[1].BezierCurveTo?
  {
    BezierPasses(env, k, if o.disableMultiStroke != 0.0 then 1 else 2, x1, y1, x2, y2, x, y, current, o)
  }

  /** The first bezier of `bezierTo` ends within maxRandomnessOffset's jitter of (x, y). */
  lemma BezierToEndsNear(env: Env, k: nat, x1: real, y1: real, x2: real, y2: real, x: real, y: real,
                         current: Point, o: RoughOptions)
    ensures var d := BezierToDraw(env, k, x1, y1, x2, y2, x, y, current, o);
      Near(Point(d.ops[1].x, d.ops[1].y), Point(x, y), JitterBound(o, 1.0, o.maxRandomnessOffset))
  {
    BezierPassNear(env, k, 0, x1, y1, x2, y2, x, y, current, o);
  }

  /** One more iteration of `bezierTo`. */
  lemma BezierPassesStep(env: Env, k: nat, i: nat, x1: real, y1: real, x2: real, y2: real, x: real, y: real,
                         current: Point, o: RoughOptions)
    requires i < 2
    ensures var done := BezierPasses(env, k, i, x1, y1, x2, y2, x, y, current, o);
      var pass := BezierPass(env, done.next, i, x1, y1, x2, y2, x, y, current, o);
      && BezierPasses(env, k, i + 1, x1, y1, x2, y2, x, y, current, o).ops == done.ops + pass.ops
      && BezierPasses(env, k, i + 1, x1, y1, x2, y2, x, y, current, o).next == pass.next
  {
    if i == 0 {
      assert [] + BezierPass(env, k, 0, x1, y1, x2, y2, x, y, current, o).ops == BezierPass(env, k, 0, x1, y1, x2, y2, x, y, current, o).ops;
    }
  }

  // ---------------------------------------------------------------- svgPath

  /** The pen of `svgPath`: the subpath start and the current point. */
  datatype Pen = Pen(first: Point, current: Point)

  /** What `svgPath` does for one normalized segment. */
  function SegmentDraw(env: Env, k: nat, pen: Pen, seg: Segment, o: RoughOptions): (Pen, Draw)
    requires WellFormed(seg)
  {
    var d := seg.data;
    match seg.key
    case 'M' =>
      var p := Point(d[0], d[1]);
      var q := JitterPoint(env, k, p, 1.0 * o.maxRandomnessOffset, o);
      (Pen(p, p), Draw([MoveTo(q.x, q.y)], k + 2))
    case 'L' =>
      (pen.(current := Point(d[0], d[1])), DoubleLineDraw(env, k, pen.current.x, pen.current.y, d[0], d[1], o, false))
    case 'C' =>
      (pen.(current := Point(d[4], d[5])), BezierToDraw(env, k, d[0], d[1], d[2], d[3], d[4], d[5], pen.current, o))
    case 'Z' =>
      (pen.(current := pen.first), DoubleLineDraw(env, k, pen.current.x, pen.current.y, pen.first.x, pen.first.y, o, false))
    case _ => (pen, Draw([], k))
  }

  /** The segment loop of `svgPath` from segment 0 of `segs` on. */
  function SvgFrom(env: Env, k: nat, pen: Pen, segs: seq<Segment>, o: RoughOptions): Draw
    requires AllWellFormed(segs)
    decreases |segs|
  {
    if segs == [] then Draw([], k)
    else
      var (pen', first) := SegmentDraw(env, k, pen, segs[0], o);
      Then(first, SvgFrom(env, first.next, pen', segs[1..], o))
  }

  /** The loop from segment i on is segment i's draw, then the loop from
      segment i + 1 on with the pen and the cursor it leaves. */
  lemma SvgFromStep(env: Env, k: nat, pen: Pen, segs: seq<Segment>, i: nat, o: RoughOptions, ops: seq<Op>)
    requires AllWellFormed(segs) && i < |segs|
    ensures var (pen', d) := SegmentDraw(env, k, pen, segs[i], o);
      var rest := SvgFrom(env, d.next, pen', segs[i + 1..], o);
      && ops + SvgFrom(env, k, pen, segs[i..], o).ops == (ops + d.ops) + rest.ops
      && SvgFrom(env, k, pen, segs[i..], o).next == rest.next
  {
    assert segs[i..][1..] == segs[i + 1..];
  }

  /** What `svgPath` draws: the parsed, absolutized and normalized path, from a
      pen at the origin; a parse error is the source's exception, with nothing
      drawn. */
  function SvgPathDraw(env: Env, k: nat, path: string, o: RoughOptions, arc: ArcToCubics): Result<Draw>
  {
    match ParsePathSpec(path)
    case Err(e) => Err(e)
    case Ok(segments) =>
      PointsOnPath.ParsedWellFormed(path);
      Ok(SvgFrom(env, k, Pen(Point(0.0, 0.0), Point(0.0, 0.0)), Normalized(Absolutized(segments), arc), o))
  }

  /** M is a jittered moveTo that sets both the subpath start and the current point. */
  lemma SegmentMoveCall(env: Env, k: nat, pen: Pen, seg: Segment, o: RoughOptions)
    requires WellFormed(seg) && seg.key == 'M'
    ensures var (pen', d) := SegmentDraw(env, k, pen, seg, o);
      && pen' == Pen(Point(seg.data[0], seg.data[1]), Point(seg.data[0], seg.data[1]))
      && |d.ops| == 1 && d.ops[0].MoveTo?
      && Near(Point(d.ops[0].x, d.ops[0].y), pen'.first, JitterBound(o, 1.0, o.maxRandomnessOffset))
  {
    JitterPointNear(env, k, Point(seg.data[0], seg.data[1]), 1.0 * o.maxRandomnessOffset, o);
  }

  /** L is a doubled line from the current point, which moves to the end. */
  lemma SegmentLineCall(env: Env, k: nat, pen: Pen, seg: Segment, o: RoughOptions)
    requires WellFormed(seg) && seg.key == 'L'
    ensures var (pen', d) := SegmentDraw(env, k, pen, seg, o);
      && pen'.first == pen.first && pen'.current == Point(seg.data[0], seg.data[1])
      && d == DrawEach(DoubleLines(env, o, false), k, [Line(pen.current, pen'.current)])
  {
    var line := Line(pen.current, Point(seg.data[0], seg.data[1]));
    OneLineDrawn(env, o, k, line);
  }

  /** C is `bezierTo` from the current point, which moves to the end point. */
  lemma SegmentCurveCall(env: Env, k: nat, pen: Pen, seg: Segment, o: RoughOptions)
    requires WellFormed(seg) && seg.key == 'C'
    ensures var (pen', d) := SegmentDraw(env, k, pen, seg, o);
      && pen'.first == pen.first && pen'.current == Point(seg.data[4], seg.data[5])
      && |d.ops| == (if o.disableMultiStroke != 0.0 then 2 else 4)
      && d.ops[0] == MoveTo(pen.current.x, pen.current.y)
  {
  }

  /** Z is a doubled line back to the subpath start, which becomes the current point. */
  lemma SegmentCloseCall(env: Env, k: nat, pen: Pen, seg: Segment, o: RoughOptions)
    requires WellFormed(seg) && seg.key == 'Z'
    ensures var (pen', d) := SegmentDraw(env, k, pen, seg, o);
      && pen' == Pen(pen.first, pen.first)
      && d == DrawEach(DoubleLines(env, o, false), k, [Line(pen.current, pen.first)])
  {
    OneLineDrawn(env, o, k, Line(pen.current, pen.first));
  }

  /** A single line drawn is one doubled line. */
  lemma OneLineDrawn(env: Env, o: RoughOptions, k: nat, line: Line)
    ensures DrawEach(DoubleLines(env, o, false), k, [line]) == DoubleLines(env, o, false)(k, line)
  {
    var d := DoubleLines(env, o, false)(k, line);
    assert DrawEach(DoubleLines(env, o, false), k, [line]) == Then(d, Draw([], d.next));
  }

  // ---------------------------------------------------------------- solid fill

  /** The i-th call of `solidFillPolygon`: a moveTo for the first vertex and a
      lineTo for the others, each jittered by maxRandomnessOffset. */
  function VertexOp(env: Env, k: nat, points: seq<Point>, i: nat, o: RoughOptions): (op: Op)
    requires i < |points|
    ensures (i == 0 <==> op.MoveTo?) && (i > 0 <==> op.LineTo?)
  {
    var q := JitterPoint(env, k + 2 * i, points[i], o.maxRandomnessOffset, o);
    if i == 0 then MoveTo(q.x, q.y) else LineTo(q.x, q.y)
  }

  /** `solidFillPolygon`: for more than two vertices, one jittered moveTo and
      a jittered lineTo per further vertex; otherwise nothing. */
  function SolidFillDraw(env: Env, k: nat, points: seq<Point>, o: RoughOptions): (d: Draw)
    ensures |points| > 2 ==> (|d.ops| == |points| && d.next == k + 2 * |points|
      && d.ops[0].MoveTo? && (forall i | 1 <= i < |points| :: d.ops[i].LineTo?))
    ensures |points| <= 2 ==> d == Draw([], k)
  {
    if |points| > 2 then Draw(VertexOps(env, k, points, o, |points|), k + 2 * |points|)
    else Draw([], k)
  }

  /** Every vertex `solidFillPolygon` visits is within maxRandomnessOffset's jitter of its vertex. */
  lemma SolidFillNear(env: Env, k: nat, points: seq<Point>, o: RoughOptions)
    requires |points| > 2
    ensures var d := SolidFillDraw(env, k, points, o);
      forall i | 0 <= i < |points| :: Near(Point(d.ops[i].x, d.ops[i].y), points[i], JitterBound(o, 1.0, o.maxRandomnessOffset))
  {
    var d := SolidFillDraw(env, k, points, o);
    forall i | 0 <= i < |points|
      ensures Near(Point(d.ops[i].x, d.ops[i].y), points[i], JitterBound(o, 1.0, o.maxRandomnessOffset))
    {
      assert d.ops[i] == VertexOp(env, k, points, i, o);
      JitterPointNear(env, k + 2 * i, points[i], o.maxRandomnessOffset, o);
    }
  }

  /** The first m calls of `solidFillPolygon`. */
  function VertexOps(env: Env, k: nat, points: seq<Point>, o: RoughOptions, m: nat): (r: seq<Op>)
    requires m <= |points|
    ensures |r| == m && forall i | 0 <= i < m :: r[i] == VertexOp(env, k, points, i, o)
  {
    seq(m, i requires 0 <= i < m => VertexOp(env, k, points, i, o))
  }

  // ---------------------------------------------------------------- the renderer

  /** The renderer of src/Renderer.h: the calls it has sent to its `Graphics`
      sink and how many `rand()` results it has used. Each public operation
      appends exactly the calls of its drawing function above and advances
      the cursor past the results it read. */
  class Renderer {
    const env: Env
    var ops: seq<Op>
    var drawn: nat

    constructor(env: Env)
      ensures this.env == env && ops == [] && drawn == 0
    {
      this.env := env;
      ops := [];
      drawn := 0;
    }

    /** `randomWithOptions`: the next `rand()` result scaled into [0, 1). */
    method RandomWithOptions(o: RoughOptions) returns (r: real)
      modifies this
      ensures r == RandomValue(env, old(drawn)) && 0.0 <= r <= 0.9999
      ensures ops == old(ops) && drawn == old(drawn) + 1
    {
      r := (env.rand(drawn) % 10000) as real / 10000.0;
      drawn := drawn + 1;
    }

    /** `offset(min, max, o, gain)`. */
    method Offset(min: real, max: real, o: RoughOptions, gain: real) returns (r: real)
      modifies this
      ensures r == OffsetValue(env, old(drawn), min, max, o, gain)
      ensures min <= max && o.roughness * gain >= 0.0 ==> (o.roughness * gain) * min <= r <= (o.roughness * gain) * max
      ensures ops == old(ops) && drawn == old(drawn) + 1
    {
      var u := RandomWithOptions(o);
      r := o.roughness * gain * ((u * (max - min)) + min);
      OffsetValueBetween(env, old(drawn), min, max, o, gain);
    }

    /** `offsetOpt(x, o, gain)`: an offset drawn from [-x, x). */
    method OffsetOpt(x: real, o: RoughOptions, gain: real) returns (r: real)
      modifies this
      ensures r == OffsetOptValue(env, old(drawn), x, o, gain)
      ensures ops == old(ops) && drawn == old(drawn) + 1
    {
      r := Offset(-x, x, o, gain);
    }

    /** A point moved by two `offsetOpt(offset, o)` results, x first. */
    method Jittered(p: Point, offset: real, o: RoughOptions) returns (q: Point)
      modifies this
      ensures q == JitterPoint(env, old(drawn), p, offset, o)
      ensures ops == old(ops) && drawn == old(drawn) + 2
    {
      var dx := OffsetOpt(offset, o, 1.0);
      var dy := OffsetOpt(offset, o, 1.0);
      q := Point(p.x + dx, p.y + dy);
    }

    /** `privateLine`. */
    method PrivateLine(x1: int, y1: int, x2: int, y2: int, o: RoughOptions, move: bool, overlay: bool)
      modifies this
      ensures ops == old(ops) + PrivateLineDraw(env, old(drawn), x1, y1, x2, y2, o, move, overlay).ops
      ensures drawn == PrivateLineDraw(env, old(drawn), x1, y1, x2, y2, o, move, overlay).next
    {
      ghost var k, ops0 := drawn, ops;
      var gain, pass := PassScale(x1, y1, x2, y2, o, overlay);
      var divergePoint, midDispX, midDispY := Bow(x1, y1, x2, y2, o, gain);
      PrivateLineUnfolds(env, k, x1, y1, x2, y2, o, move, overlay);
      PassOps(x1 as real, y1 as real, x2 as real, y2 as real, midDispX, midDispY, divergePoint, pass, o, gain, move);
    }

    /** The calls of one `privateLine` pass once its bowing is drawn. */
    method PassOps(x1: real, y1: real, x2: real, y2: real, midDispX: real, midDispY: real,
                   divergePoint: real, pass: real, o: RoughOptions, gain: real, move: bool)
      modifies this
      ensures var curve := PassCurve(env, old(drawn) + (if move then 2 else 0), x1, y1, x2, y2, midDispX, midDispY, divergePoint, pass, o, gain);
        ops == old(ops) + (if move then [PassStart(env, old(drawn), x1, y1, pass, o, gain), curve] else [curve])
      ensures drawn == old(drawn) + (if move then 8 else 6)
    {
      if move {
        MoveToPass(x1, y1, pass, o, gain);
      }
      CurvePass(x1, y1, x2, y2, midDispX, midDispY, divergePoint, pass, o, gain);
    }

    /** `doubleLine`: the two passes of `privateLine` between the truncated
        coordinates, the second unless single-stroked. */
    method DoubleLine(x1: real, y1: real, x2: real, y2: real, o: RoughOptions, filling: bool)
      modifies this
      ensures ops == old(ops) + DoubleLineDraw(env, old(drawn), x1, y1, x2, y2, o, filling).ops
      ensures drawn == DoubleLineDraw(env, old(drawn), x1, y1, x2, y2, o, filling).next
    {
      var singleStroke := if filling then o.disableMultiStrokeFill != 0.0 else o.disableMultiStroke != 0.0;
      PrivateLine(Trunc(x1), Trunc(y1), Trunc(x2), Trunc(y2), o, true, false);
      if !singleStroke {
        PrivateLine(Trunc(x1), Trunc(y1), Trunc(x2), Trunc(y2), o, true, true);
      }
    }

    /** `line`: a doubled line in stroke mode. */
    method DrawLine(x1: real, y1: real, x2: real, y2: real, o: RoughOptions)
      modifies this
      ensures ops == old(ops) + DoubleLineDraw(env, old(drawn), x1, y1, x2, y2, o, false).ops
      ensures drawn == DoubleLineDraw(env, old(drawn), x1, y1, x2, y2, o, false).next
    {
      DoubleLine(x1, y1, x2, y2, o, false);
    }

    /** `doubleLineFillOps`: a doubled line in fill mode. */
    method DoubleLineFillOps(x1: real, y1: real, x2: real, y2: real, o: RoughOptions)
      modifies this
      ensures ops == old(ops) + DoubleLineDraw(env, old(drawn), x1, y1, x2, y2, o, true).ops
      ensures drawn == DoubleLineDraw(env, old(drawn), x1, y1, x2, y2, o, true).next
    {
      DoubleLine(x1, y1, x2, y2, o, true);
    }

    /** `linearPath`: the doubled lines of `PathLines(points, close)` in order. */
    method LinearPath(points: seq<Point>, close: bool, o: RoughOptions)
      modifies this
      ensures ops == old(ops) + DrawEach(DoubleLines(env, o, false), old(drawn), PathLines(points, close)).ops
      ensures drawn == DrawEach(DoubleLines(env, o, false), old(drawn), PathLines(points, close)).next
    {
      ghost var k, ops0 := drawn, ops;
      var len := |points|;
      if len > 2 {
        DoubleLineChain(points, o);
        if close {
          DoubleLineStep(Line(points[len - 1], points[0]), o, k, ops0, Chain(points));
        } else {
          assert Chain(points) + [] == Chain(points);
        }
        assert PathLines(points, close) == Chain(points) + (if close then [Line(points[len - 1], points[0])] else []);
      } else if len == 2 {
        assert PathLines(points, close) == [] + [Line(points[0], points[1])];
        DoubleLineStep(Line(points[0], points[1]), o, k, ops0, []);
      }
    }

    /** The loop of `linearPath`: a doubled line between each pair of
        consecutive vertices. */
    method DoubleLineChain(points: seq<Point>, o: RoughOptions)
      requires points != []
      modifies this
      ensures ops == old(ops) + DrawEach(DoubleLines(env, o, false), old(drawn), Chain(points)).ops
      ensures drawn == DrawEach(DoubleLines(env, o, false), old(drawn), Chain(points)).next
    {
      ghost var k, ops0 := drawn, ops;
      ghost var lines := Chain(points);
      var i := 0;
      while i < |points| - 1
        invariant 0 <= i <= |points| - 1
        invariant ops == ops0 + DrawEach(DoubleLines(env, o, false), k, lines[..i]).ops
        invariant drawn == DrawEach(DoubleLines(env, o, false), k, lines[..i]).next
      {
        TakeSnoc(lines, i);
        DoubleLineStep(Line(points[i], points[i + 1]), o, k, ops0, lines[..i]);
        i := i + 1;
      }
      TakeAll(lines);
    }

    /** One more doubled line of a path, drawn with `doubleLine` from l.a to l.b. */
    method DoubleLineStep(l: Line, o: RoughOptions, ghost k: nat, ghost ops0: seq<Op>, ghost done: seq<Line>)
      requires ops == ops0 + DrawEach(DoubleLines(env, o, false), k, done).ops
      requires drawn == DrawEach(DoubleLines(env, o, false), k, done).next
      modifies this
      ensures ops == ops0 + DrawEach(DoubleLines(env, o, false), k, done + [l]).ops
      ensures drawn == DrawEach(DoubleLines(env, o, false), k, done + [l]).next
    {
      SnocDoubleLine(env, o, false, k, done, l);
      DoubleLine(l.a.x, l.a.y, l.b.x, l.b.y, o, false);
      Extend(ops0, DrawEach(DoubleLines(env, o, false), k, done),
        DoubleLineDraw(env, DrawEach(DoubleLines(env, o, false), k, done).next, l.a.x, l.a.y, l.b.x, l.b.y, o, false),
        DrawEach(DoubleLines(env, o, false), k, done + [l]));
    }

    /** `polygon`: the closed linear path through the vertices. */
    method Polygon(points: seq<Point>, o: RoughOptions)
      modifies this
      ensures ops == old(ops) + DrawEach(DoubleLines(env, o, false), old(drawn), PathLines(points, true)).ops
      ensures drawn == DrawEach(DoubleLines(env, o, false), old(drawn), PathLines(points, true)).next
    {
      LinearPath(points, true, o);
    }

    /** `rectangle`: the polygon through the four corners. */
    method Rectangle(x: real, y: real, width: real, height: real, o: RoughOptions)
      modifies this
      ensures ops == old(ops) + DrawEach(DoubleLines(env, o, false), old(drawn), PathLines(RectangleCorners(x, y, width, height), true)).ops
      ensures drawn == DrawEach(DoubleLines(env, o, false), old(drawn), PathLines(RectangleCorners(x, y, width, height), true)).next
    {
      var points := [Point(x, y), Point(x + width, y), Point(x + width, y + height), Point(x, y + height)];
      Polygon(points, o);
    }

    /** `curve(points, closePoint, o)`. */
    method CurveThrough(points: seq<Point>, closePoint: Option<Point>, o: RoughOptions)
      modifies this
      ensures ops == old(ops) + CurveDraw(env, old(drawn), points, closePoint, o).ops
      ensures drawn == CurveDraw(env, old(drawn), points, closePoint, o).next
    {
      var len := |points|;
      if len > 3 {
        var s := 1.0 - o.curveTightness;
        CatmullRomSegments(points, s);
        if closePoint.Some? {
          var ro := o.maxRandomnessOffset;
          var q := Jittered(closePoint.value, ro, o);
          ops := ops + [LineTo(q.x, q.y)];
        }
      } else if len == 3 {
        ops := ops + [MoveTo(points[1].x, points[1].y),
          BezierCurveTo(points[1].x, points[1].y, points[2].x, points[2].y, points[2].x, points[2].y)];
      } else if len == 2 {
        DoubleLine(points[0].x, points[0].y, points[1].x, points[1].y, o, false);
      }
    }

    /** The moveTo and the bezier loop of `curve` for four or more points. */
    method CatmullRomSegments(points: seq<Point>, s: real)
      requires |points| > 3
      modifies this
      ensures ops == old(ops) + [MoveTo(points[1].x, points[1].y)] + CatmullRom(points, s)
      ensures drawn == old(drawn)
    {
      ghost var ops0 := ops;
      ghost var beziers := CatmullRom(points, s);
      ops := ops + [MoveTo(points[1].x, points[1].y)];
      var i := 1;
      while i + 2 < |points|
        invariant 1 <= i <= |points| - 2
        invariant ops == ops0 + [MoveTo(points[1].x, points[1].y)] + beziers[..i - 1]
        invariant drawn == old(drawn)
      {
        var cached := points[i];
        var b1 := Point(cached.x + (s * points[i + 1].x - s * points[i - 1].x) / 6.0,
                        cached.y + (s * points[i + 1].y - s * points[i - 1].y) / 6.0);
        var b2 := Point(points[i + 1].x + (s * points[i].x - s * points[i + 2].x) / 6.0,
                        points[i + 1].y + (s * points[i].y - s * points[i + 2].y) / 6.0);
        var b3 := points[i + 1];
        assert beziers[i - 1] == CurveStep(points, i, s) == BezierCurveTo(b1.x, b1.y, b2.x, b2.y, b3.x, b3.y);
        TakeSnoc(beziers, i - 1);
        ops := ops + [BezierCurveTo(b1.x, b1.y, b2.x, b2.y, b3.x, b3.y)];
        i := i + 1;
      }
      TakeAll(beziers);
    }

    /** `curveWithOffset`: the jittered control points, then the curve through them. */
    method CurveWithOffset(points: seq<Point>, offset: real, o: RoughOptions)
      requires points != []
      modifies this
      ensures ops == old(ops) + CurveWithOffsetDraw(env, old(drawn), points, offset, o).ops
      ensures drawn == CurveWithOffsetDraw(env, old(drawn), points, offset, o).next
    {
      var ps := CurveControls(points, offset, o);
      CurveThrough(ps, None, o);
    }

    /** The control points of `curveWithOffset`, built in its loop. */
    method CurveControls(points: seq<Point>, offset: real, o: RoughOptions) returns (ps: seq<Point>)
      requires points != []
      modifies this
      ensures ps == CurvePoints(env, old(drawn), points, offset, o)
      ensures ops == old(ops) && drawn == CurvePointsNext(old(drawn), |points|)
    {
      ghost var k := drawn;
      var n := |points|;
      var a := Jittered(points[0], offset, o);
      var b := Jittered(points[0], offset, o);
      ps := [a, b];
      var i := 1;
      while i < n
        invariant 1 <= i <= n
        invariant ops == old(ops) && drawn == k + 2 + 2 * i
        invariant ps == [a, b] + InnerJitter(env, k, points, offset, o, i - 1)
      {
        var q := Jittered(points[i], offset, o);
        InnerJitterSnoc(env, k, points, offset, o, i);
        ConcatAssoc([a, b], InnerJitter(env, k, points, offset, o, i - 1), [q]);
        ps := ps + [q];
        i := i + 1;
      }
      if n > 1 {
        // the last point once more, which the source adds in the last iteration
        var t := Jittered(points[n - 1], offset, o);
        ps := ps + [t];
      } else {
        assert ps == [a, b] + [];
      }
    }

    /** `curve(points, o)`: one curve with offset and, unless
        `disableMultiStroke`, a second one with a larger offset. */
    method Curve(points: seq<Point>, o: RoughOptions)
      requires points != []
      modifies this
      ensures ops == old(ops) + RoughCurveDraw(env, old(drawn), points, o).ops
      ensures drawn == RoughCurveDraw(env, old(drawn), points, o).next
    {
      ghost var k := drawn;
      ghost var ops0 := ops;
      CurveWithOffset(points, FirstStrokeOffset(o), o);
      if o.disableMultiStroke == 0.0 {
        SecondCurve(points, o, k, ops0);
      } else {
        RoughCurveSingle(env, k, points, o, ops0, ops, drawn);
      }
    }

    /** The second stroke of `curve`, after the first one has been drawn. */
    method SecondCurve(points: seq<Point>, o: RoughOptions, ghost k: nat, ghost ops0: seq<Op>)
      requires points != [] && o.disableMultiStroke == 0.0
      requires ops == ops0 + CurveWithOffsetDraw(env, k, points, FirstStrokeOffset(o), o).ops
      requires drawn == CurveWithOffsetNext(k, |points|, o)
      modifies this
      ensures ops == ops0 + RoughCurveDraw(env, k, points, o).ops
      ensures drawn == RoughCurveDraw(env, k, points, o).next
    {
      ghost var ops1 := ops;
      CurveWithOffset(points, SecondStrokeOffset(o), o);
      RoughCurveAfterStrokes(env, k, points, o, ops0, ops1, ops, drawn);
    }

    /** `bezierTo`: one iteration when `disableMultiStroke`, otherwise two. */
    method BezierTo(x1: real, y1: real, x2: real, y2: real, x: real, y: real, current: Point, o: RoughOptions)
      modifies this
      ensures ops == old(ops) + BezierToDraw(env, old(drawn), x1, y1, x2, y2, x, y, current, o).ops
      ensures drawn == BezierToDraw(env, old(drawn), x1, y1, x2, y2, x, y, current, o).next
    {
      ghost var k, ops0 := drawn, ops;
      var iterations := if o.disableMultiStroke != 0.0 then 1 else 2;
      var i := 0;
      while i < iterations
        invariant 0 <= i <= iterations
        invariant ops == ops0 + BezierPasses(env, k, i, x1, y1, x2, y2, x, y, current, o).ops
        invariant drawn == BezierPasses(env, k, i, x1, y1, x2, y2, x, y, current, o).next
      {
        BezierLoopStep(i, x1, y1, x2, y2, x, y, current, o, k, ops0);
        i := i + 1;
      }
    }

    /** One more iteration of the `bezierTo` loop. */
    method BezierLoopStep(i: nat, x1: real, y1: real, x2: real, y2: real, x: real, y: real, current: Point, o: RoughOptions,
                          ghost k: nat, ghost ops0: seq<Op>)
      requires i < 2
      requires ops == ops0 + BezierPasses(env, k, i, x1, y1, x2, y2, x, y, current, o).ops
      requires drawn == BezierPasses(env, k, i, x1, y1, x2, y2, x, y, current, o).next
      modifies this
      ensures ops == ops0 + BezierPasses(env, k, i + 1, x1, y1, x2, y2, x, y, current, o).ops
      ensures drawn == BezierPasses(env, k, i + 1, x1, y1, x2, y2, x, y, current, o).next
    {
      BezierPassesStep(env, k, i, x1, y1, x2, y2, x, y, current, o);
      BezierIteration(i, x1, y1, x2, y2, x, y, current, o);
    }

    /** Iteration i of the `bezierTo` loop. */
    method BezierIteration(i: nat, x1: real, y1: real, x2: real, y2: real, x: real, y: real, current: Point, o: RoughOptions)
      requires i < 2
      modifies this
      ensures ops == old(ops) + BezierPass(env, old(drawn), i, x1, y1, x2, y2, x, y, current, o).ops
      ensures drawn == BezierPass(env, old(drawn), i, x1, y1, x2, y2, x, y, current, o).next
    {
      var ros := [o.maxRandomnessOffset, o.maxRandomnessOffset + 0.3];
      if i == 0 {
        ops := ops + [MoveTo(current.x, current.y)];
      } else {
        var start := Jittered(current, ros[0], o);
        ops := ops + [MoveTo(start.x, start.y)];
      }
      var f := Jittered(Point(x, y), ros[i], o);
      var c1 := Jittered(Point(x1, y1), ros[i], o);
      var c2 := Jittered(Point(x2, y2), ros[i], o);
      ops := ops + [BezierCurveTo(c1.x, c1.y, c2.x, c2.y, f.x, f.y)];
    }

    /** `svgPath`: the segments of the parsed, absolutized and normalized path
        in turn; a parse error is returned, as the source throws it, before
        anything is drawn. */
    method SvgPath(path: string, o: RoughOptions, arc: ArcToCubics) returns (error: Option<ParseError>)
      modifies this
      ensures SvgPathDraw(env, old(drawn), path, o, arc).Err? ==>
        (error == Some(SvgPathDraw(env, old(drawn), path, o, arc).error) && ops == old(ops) && drawn == old(drawn))
      ensures SvgPathDraw(env, old(drawn), path, o, arc).Ok? ==> (error == None
        && ops == old(ops) + SvgPathDraw(env, old(drawn), path, o, arc).value.ops
        && drawn == SvgPathDraw(env, old(drawn), path, o, arc).value.next)
    {
      var parsed := ParsePath(path);
      if parsed.Err? {
        return Some(parsed.error);
      }
      PointsOnPath.ParsedWellFormed(path);
      var absolute := AbsolutizePath(parsed.value);
      var segments := NormalizePath(absolute, arc);
      SvgSegments(segments, o);
      error := None;
    }

    /** The segment loop of `svgPath`, from a pen at the origin. */
    method SvgSegments(segments: seq<Segment>, o: RoughOptions)
      requires AllWellFormed(segments)
      modifies this
      ensures ops == old(ops) + SvgFrom(env, old(drawn), Pen(Point(0.0, 0.0), Point(0.0, 0.0)), segments, o).ops
      ensures drawn == SvgFrom(env, old(drawn), Pen(Point(0.0, 0.0), Point(0.0, 0.0)), segments, o).next
    {
      var first := Point(0.0, 0.0);
      var current := Point(0.0, 0.0);
      ghost var ops0 := ops;
      ghost var whole := SvgFrom(env, drawn, Pen(first, current), segments, o);
      var i := 0;
      while i < |segments|
        invariant 0 <= i <= |segments|
        invariant ops0 + whole.ops == ops + SvgFrom(env, drawn, Pen(first, current), segments[i..], o).ops
        invariant whole.next == SvgFrom(env, drawn, Pen(first, current), segments[i..], o).next
      {
        SvgFromStep(env, drawn, Pen(first, current), segments, i, o, ops);
        var pen := DrawSegment(Pen(first, current), segments[i], o);
        first, current := pen.first, pen.current;
        i := i + 1;
      }
    }

    /** One segment of `svgPath`. */
    method DrawSegment(pen: Pen, seg: Segment, o: RoughOptions) returns (pen': Pen)
      requires WellFormed(seg)
      modifies this
      ensures pen' == SegmentDraw(env, old(drawn), pen, seg, o).0
      ensures ops == old(ops) + SegmentDraw(env, old(drawn), pen, seg, o).1.ops
      ensures drawn == SegmentDraw(env, old(drawn), pen, seg, o).1.next
    {
      var data := seg.data;
      pen' := pen;
      match seg.key
      case 'M' =>
        var ro := 1.0 * o.maxRandomnessOffset;
        var q := Jittered(Point(data[0], data[1]), ro, o);
        ops := ops + [MoveTo(q.x, q.y)];
        pen' := Pen(Point(data[0], data[1]), Point(data[0], data[1]));
      case 'L' =>
        DoubleLine(pen.current.x, pen.current.y, data[0], data[1], o, false);
        pen' := pen.(current := Point(data[0], data[1]));
      case 'C' =>
        BezierTo(data[0], data[1], data[2], data[3], data[4], data[5], pen.current, o);
        pen' := pen.(current := Point(data[4], data[5]));
      case 'Z' =>
        DoubleLine(pen.current.x, pen.current.y, pen.first.x, pen.first.y, o, false);
        pen' := pen.(current := pen.first);
      case _ =>
    }

    /** `solidFillPolygon`. */
    method SolidFillPolygon(points: seq<Point>, o: RoughOptions)
      modifies this
      ensures ops == old(ops) + SolidFillDraw(env, old(drawn), points, o).ops
      ensures drawn == SolidFillDraw(env, old(drawn), points, o).next
    {
      ghost var k, ops0 := drawn, ops;
      if |points| > 0 {
        var offset := o.maxRandomnessOffset;
        var len := |points|;
        if len > 2 {
          var p := Jittered(points[0], offset, o);
          ops := ops + [MoveTo(p.x, p.y)];
          assert ops == ops0 + VertexOps(env, k, points, o, 1);
          var i := 1;
          while i < len
            invariant 1 <= i <= len
            invariant ops == ops0 + VertexOps(env, k, points, o, i) && drawn == k + 2 * i
          {
            var q := Jittered(points[i], offset, o);
            assert VertexOps(env, k, points, o, i + 1) == VertexOps(env, k, points, o, i) + [LineTo(q.x, q.y)];
            ops := ops + [LineTo(q.x, q.y)];
            i := i + 1;
          }
        }
      }
    }

    /** The roughness gain and the jitter of a `privateLine` pass: the gain
        falls with the length of the line, and the jitter is the configured
        offset clamped to a tenth of the length, halved for the overlay. */
    method PassScale(x1: int, y1: int, x2: int, y2: int, o: RoughOptions, overlay: bool) returns (gain: real, pass: real)
      ensures gain == PassGain(env, x1, y1, x2, y2) && pass == PassJitter(env, x1, y1, x2, y2, o, overlay)
    {
      var lengthSq := LengthSq(x1, y1, x2, y2);
      var length := env.sqrt(lengthSq);
      gain := RoughnessGain(length);
      var offset := JitterLimit(o.maxRandomnessOffset, length, lengthSq);
      pass := if overlay then offset / 2.0 else offset;
    }

    /** The diverge point and the jittered bowing of a `privateLine` pass. */
    method Bow(x1: int, y1: int, x2: int, y2: int, o: RoughOptions, gain: real)
      returns (divergePoint: real, midDispX: real, midDispY: real)
      modifies this
      ensures divergePoint == DivergePoint(RandomValue(env, old(drawn)))
      ensures midDispX == OffsetOptValue(env, old(drawn) + 1, Bowing(o, y2 - y1), o, gain)
      ensures midDispY == OffsetOptValue(env, old(drawn) + 2, Bowing(o, x1 - x2), o, gain)
      ensures ops == old(ops) && drawn == old(drawn) + 3
    {
      var r := RandomWithOptions(o);
      divergePoint := DivergePoint(r);
      midDispX := OffsetOpt(Bowing(o, y2 - y1), o, gain);
      midDispY := OffsetOpt(Bowing(o, x1 - x2), o, gain);
    }

    /** The jittered moveTo of a `privateLine` pass. */
    method MoveToPass(x1: real, y1: real, pass: real, o: RoughOptions, gain: real)
      modifies this
      ensures ops == old(ops) + [PassStart(env, old(drawn), x1, y1, pass, o, gain)] && drawn == old(drawn) + 2
    {
      var dx := OffsetOpt(pass, o, gain);
      var dy := OffsetOpt(pass, o, gain);
      ops := ops + [MoveTo(x1 + dx, y1 + dy)];
    }

    /** The bowed bezier of a `privateLine` pass, its arguments jittered in order. */
    method CurvePass(x1: real, y1: real, x2: real, y2: real, midDispX: real, midDispY: real,
                     divergePoint: real, pass: real, o: RoughOptions, gain: real)
      modifies this
      ensures ops == old(ops) + [PassCurve(env, old(drawn), x1, y1, x2, y2, midDispX, midDispY, divergePoint, pass, o, gain)]
      ensures drawn == old(drawn) + 6
    {
      var d1 := OffsetOpt(pass, o, gain);
      var d2 := OffsetOpt(pass, o, gain);
      var d3 := OffsetOpt(pass, o, gain);
      var d4 := OffsetOpt(pass, o, gain);
      var d5 := OffsetOpt(pass, o, gain);
      var d6 := OffsetOpt(pass, o, gain);
      ops := ops + [BezierCurveTo(
        midDispX + x1 + (x2 - x1) * divergePoint + d1,
        midDispY + y1 + (y2 - y1) * divergePoint + d2,
        midDispX + x1 + 2.0 * (x2 - x1) * divergePoint + d3,
        midDispY + y1 + 2.0 * (y2 - y1) * divergePoint + d4,
        x2 + d5,
        y2 + d6)];
    }
  }
}
