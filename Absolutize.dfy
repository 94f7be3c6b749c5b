/** Relative-to-absolute conversion of parsed path segments
    (src/PathDataParser/Absolutize.cpp).

    One pass over the segments keeps the current point `(cx, cy)` and the start
    of the current subpath `(subx, suby)`; every recognised segment becomes one
    segment with an upper-case key and absolute coordinates. */
module Absolutize {
  import opened Core
  import opened Parser

  /** The four variables the source loop updates. */
  datatype Cursor = Cursor(cx: real, cy: real, subx: real, suby: real)

  const Origin := Cursor(0.0, 0.0, 0.0, 0.0)

  /** A recognised segment carries exactly as many numbers as its key needs; the
      source reads `data[k]` without a bounds check. */
  predicate WellFormed(seg: Segment)
  {
    IsCommandKey(seg.key) ==> |seg.data| == Arity(seg.key)
  }

  /** `PARAMS_COUNT` read as a function of the key: how many numbers a command
      takes, and -1 for a character that is not a command. */
  function Arity(c: char): int
  {
    match c
    case 'A' => 7 case 'a' => 7 case 'C' => 6 case 'c' => 6 case 'H' => 1 case 'h' => 1
    case 'L' => 2 case 'l' => 2 case 'M' => 2 case 'm' => 2 case 'Q' => 4 case 'q' => 4
    case 'S' => 4 case 's' => 4 case 'T' => 2 case 't' => 2 case 'V' => 1 case 'v' => 1
    case 'Z' => 0 case 'z' => 0
    case _ => -1
  }

  /** The keys of `PARAMS_COUNT`. */
  predicate IsCommandKey(c: char) { Arity(c) >= 0 }

  /** `Arity` is `PARAMS_COUNT`: the same keys, the same counts. */
  lemma ArityIsParamsCount(c: char)
    ensures c in PARAMS_COUNT <==> IsCommandKey(c)
    ensures c in PARAMS_COUNT ==> PARAMS_COUNT[c] == Arity(c)
  {
    if c in {'A', 'C', 'H', 'L', 'M', 'Q', 'S', 'T', 'V', 'Z'} {
      UpperArity(c);
    } else if c in {'a', 'c', 'h', 'l', 'm', 'q', 's', 't', 'v', 'z'} {
      LowerArity(c);
    }
  }

  lemma UpperArity(c: char)
    requires c in {'A', 'C', 'H', 'L', 'M', 'Q', 'S', 'T', 'V', 'Z'}
    ensures c in PARAMS_COUNT && PARAMS_COUNT[c] == Arity(c)
  {
  }

  lemma LowerArity(c: char)
    requires c in {'a', 'c', 'h', 'l', 'm', 'q', 's', 't', 'v', 'z'}
    ensures c in PARAMS_COUNT && PARAMS_COUNT[c] == Arity(c)
  {
  }

  predicate AllWellFormed(segs: seq<Segment>)
  {
    forall i :: 0 <= i < |segs| ==> WellFormed(segs[i])
  }

  predicate AllRecognised(segs: seq<Segment>)
  {
    forall i :: 0 <= i < |segs| ==> IsCommandKey(segs[i].key)
  }

  predicate IsUpperKey(c: char) { c in {'M', 'L', 'C', 'Q', 'A', 'H', 'V', 'S', 'T', 'Z'} }

  /** The upper-case form of a command letter. */
  function ToUpper(c: char): char
  {
    if 'a' <= c <= 'z' then (c as int - 32) as char else c
  }

  /** The point a segment in absolute form ends at, given the state before it. */
  function EndPoint(c: Cursor, y: Segment): (real, real)
    requires IsUpperKey(y.key) && WellFormed(y)
  {
    match y.key
    case 'M' => (y.data[0], y.data[1])
    case 'L' => (y.data[0], y.data[1])
    case 'T' => (y.data[0], y.data[1])
    case 'C' => (y.data[4], y.data[5])
    case 'Q' => (y.data[2], y.data[3])
    case 'S' => (y.data[2], y.data[3])
    case 'A' => (y.data[5], y.data[6])
    case 'H' => (y.data[0], c.cy)
    case 'V' => (c.cx, y.data[0])
    case 'Z' => (c.subx, c.suby)
  }

  /** Every `(x, y)` pair of `data` moved by `(dx, dy)`. */
  function ShiftPairs(data: seq<real>, dx: real, dy: real): (r: seq<real>)
    requires |data| % 2 == 0
    ensures |r| == |data|
    ensures forall k :: 0 <= k < |r| ==> r[k] == data[k] + (if k % 2 == 0 then dx else dy)
  {
    if data == [] then [] else [data[0] + dx, data[1] + dy] + ShiftPairs(data[2..], dx, dy)
  }

  /** One iteration of the source loop: the new state and what it appends to `out`. */
  function Step(c: Cursor, seg: Segment): (Cursor, seq<Segment>)
    requires WellFormed(seg)
  {
    var d := seg.data;
    match seg.key
    case 'M' => (Cursor(d[0], d[1], d[0], d[1]), [seg])
    case 'm' =>
      var x := c.cx + d[0];
      var y := c.cy + d[1];
      (Cursor(x, y, x, y), [Segment('M', [x, y])])
    case 'L' => (c.(cx := d[0], cy := d[1]), [seg])
    case 'l' =>
      var x := c.cx + d[0];
      var y := c.cy + d[1];
      (c.(cx := x, cy := y), [Segment('L', [x, y])])
    case 'C' => (c.(cx := d[4], cy := d[5]), [seg])
    case 'c' =>
      var nd := [d[0] + c.cx, d[1] + c.cy, d[2] + c.cx, d[3] + c.cy, d[4] + c.cx, d[5] + c.cy];
      (c.(cx := nd[4], cy := nd[5]), [Segment('C', nd)])
    case 'Q' => (c.(cx := d[2], cy := d[3]), [seg])
    case 'q' =>
      var nd := [d[0] + c.cx, d[1] + c.cy, d[2] + c.cx, d[3] + c.cy];
      (c.(cx := nd[2], cy := nd[3]), [Segment('Q', nd)])
    case 'A' => (c.(cx := d[5], cy := d[6]), [seg])
    case 'a' =>
      var x := c.cx + d[5];
      var y := c.cy + d[6];
      (c.(cx := x, cy := y), [Segment('A', [d[0], d[1], d[2], d[3], d[4], x, y])])
    case 'H' => (c.(cx := d[0]), [seg])
    case 'h' =>
      var x := c.cx + d[0];
      (c.(cx := x), [Segment('H', [x])])
    case 'V' => (c.(cy := d[0]), [seg])
    case 'v' =>
      var y := c.cy + d[0];
      (c.(cy := y), [Segment('V', [y])])
    case 'S' => (c.(cx := d[2], cy := d[3]), [seg])
    case 's' =>
      var nd := [d[0] + c.cx, d[1] + c.cy, d[2] + c.cx, d[3] + c.cy];
      (c.(cx := nd[2], cy := nd[3]), [Segment('S', nd)])
    case 'T' => (c.(cx := d[0], cy := d[1]), [seg])
    case 't' =>
      var x := c.cx + d[0];
      var y := c.cy + d[1];
      (c.(cx := x, cy := y), [Segment('T', [x, y])])
    case 'Z' => (c.(cx := c.subx, cy := c.suby), [Segment('Z', [])])
    case 'z' => (c.(cx := c.subx, cy := c.suby), [Segment('Z', [])])
    case _ => (c, [])
  }

  /** What the loop appends from state `c` on for the segments `segs`: only
      well-formed upper-case segments, one for each recognised input segment. */
  function AbsFrom(c: Cursor, segs: seq<Segment>): (r: seq<Segment>)
    requires AllWellFormed(segs)
    ensures forall i :: 0 <= i < |r| ==> IsUpperKey(r[i].key) && WellFormed(r[i])
    ensures |r| <= |segs|
    ensures AllRecognised(segs) ==> |r| == |segs|
    decreases |segs|
  {
    if segs == [] then []
    else
      var (c', ys) := Step(c, segs[0]);
      StepKeys(c, segs[0]);
      ys + AbsFrom(c', segs[1..])
  }

  /** The state after the segments `segs`, starting from `c`. */
  function CursorAfter(c: Cursor, segs: seq<Segment>): Cursor
    requires AllWellFormed(segs)
    decreases |segs|
  {
    if segs == [] then c else CursorAfter(Step(c, segs[0]).0, segs[1..])
  }

  /** What `absolutize` returns. */
  function Absolutized(segs: seq<Segment>): seq<Segment>
    requires AllWellFormed(segs)
  {
    AbsFrom(Origin, segs)
  }

  /** The body of the `absolutize` loop: the `switch` on the segment key, updating
      `cx`, `cy`, `subx`, `suby` and appending to `out`. */
  method AbsolutizeSegment(c: Cursor, seg: Segment, out0: seq<Segment>) returns (c': Cursor, out: seq<Segment>)
    requires WellFormed(seg)
    ensures c' == Step(c, seg).0 && out == out0 + Step(c, seg).1
  {
    var cx, cy, subx, suby := c.cx, c.cy, c.subx, c.suby;
    var data := seg.data;
    out := out0;
    match seg.key {
      case 'M' =>
        out := out + [Segment('M', data)];
        cx, cy := data[0], data[1];
        subx, suby := data[0], data[1];
      case 'm' =>
        cx := cx + data[0];
        cy := cy + data[1];
        out := out + [Segment('M', [cx, cy])];
        subx := cx;
        suby := cy;
      case 'L' =>
        out := out + [Segment('L', data)];
        cx, cy := data[0], data[1];
      case 'l' =>
        cx := cx + data[0];
        cy := cy + data[1];
        out := out + [Segment('L', [cx, cy])];
      case 'C' =>
        out := out + [Segment('C', data)];
        cx := data[4];
        cy := data[5];
      case 'c' =>
        var newdata := [data[0] + cx, data[1] + cy, data[2] + cx, data[3] + cy, data[4] + cx, data[5] + cy];
        out := out + [Segment('C', newdata)];
        cx := newdata[4];
        cy := newdata[5];
      case 'Q' =>
        out := out + [Segment('Q', data)];
        cx := data[2];
        cy := data[3];
      case 'q' =>
        var newdata := [data[0] + cx, data[1] + cy, data[2] + cx, data[3] + cy];
        out := out + [Segment('Q', newdata)];
        cx := newdata[2];
        cy := newdata[3];
      case 'A' =>
        out := out + [Segment('A', data)];
        cx := data[5];
        cy := data[6];
      case 'a' =>
        cx := cx + data[5];
        cy := cy + data[6];
        out := out + [Segment('A', [data[0], data[1], data[2], data[3], data[4], cx, cy])];
      case 'H' =>
        out := out + [Segment('H', data)];
        cx := data[0];
      case 'h' =>
        cx := cx + data[0];
        out := out + [Segment('H', [cx])];
      case 'V' =>
        out := out + [Segment('V', data)];
        cy := data[0];
      case 'v' =>
        cy := cy + data[0];
        out := out + [Segment('V', [cy])];
      case 'S' =>
        out := out + [Segment('S', data)];
        cx := data[2];
        cy := data[3];
      case 's' =>
        var newdata := [data[0] + cx, data[1] + cy, data[2] + cx, data[3] + cy];
        out := out + [Segment('S', newdata)];
        cx := newdata[2];
        cy := newdata[3];
      case 'T' =>
        out := out + [Segment('T', data)];
        cx := data[0];
        cy := data[1];
      case 't' =>
        cx := cx + data[0];
        cy := cy + data[1];
        out := out + [Segment('T', [cx, cy])];
      case 'Z' =>
        out := out + [Segment('Z', [])];
        cx := subx;
        cy := suby;
      case 'z' =>
        out := out + [Segment('Z', [])];
        cx := subx;
        cy := suby;
      case _ =>
    }
    c' := Cursor(cx, cy, subx, suby);
  }

  /** `absolutize`: one loop over the segments updating `cx`, `cy`, `subx`, `suby`
      and appending to `out`. */
  method AbsolutizePath(segments: seq<Segment>) returns (out: seq<Segment>)
    requires AllWellFormed(segments)
    ensures out == Absolutized(segments)
  {
    var cur := Origin;
    out := [];
    var i := 0;
    assert segments[0..] == segments;
    while i < |segments|
      invariant 0 <= i <= |segments|
      invariant Absolutized(segments) == out + AbsFrom(cur, segments[i..])
    {
      ghost var rest := segments[i..];
      ghost var out0 := out;
      assert rest[0] == segments[i] && rest[1..] == segments[i + 1..];
      ghost var before := cur;
      cur, out := AbsolutizeSegment(cur, segments[i], out);
      AbsFromStep(before, rest, out0, Step(before, segments[i]).1);
      i := i + 1;
      assert segments[i..] == rest[1..];
    }
    assert segments[i..] == [];
  }

  lemma AbsFromStep(c: Cursor, segs: seq<Segment>, done: seq<Segment>, ys: seq<Segment>)
    requires segs != [] && AllWellFormed(segs) && Step(c, segs[0]).1 == ys
    ensures done + AbsFrom(c, segs) == (done + ys) + AbsFrom(Step(c, segs[0]).0, segs[1..])
  {
    ConcatAssoc(done, ys, AbsFrom(Step(c, segs[0]).0, segs[1..]));
  }

  // ---------------------------------------------------------------- properties of one step

  /** A recognised segment yields exactly one well-formed segment whose key is the
      upper-case form of the input key; anything else yields nothing and leaves the
      state alone. */
  lemma StepKeys(c: Cursor, seg: Segment)
    requires WellFormed(seg)
    ensures var (c', ys) := Step(c, seg);
      if IsCommandKey(seg.key) then
        |ys| == 1 && ys[0].key == ToUpper(seg.key) && IsUpperKey(ys[0].key) && WellFormed(ys[0])
      else ys == [] && c' == c
  {
  }

  /** Absolute segments are copied verbatim. */
  lemma StepCopiesAbsolute(c: Cursor, seg: Segment)
    requires WellFormed(seg) && IsUpperKey(seg.key)
    ensures Step(c, seg).1 == [seg]
  {
  }

  /** After any recognised segment the current point is where that segment, in
      absolute form, ends; the subpath start moves only on M/m, to the new point. */
  lemma StepEndPoint(c: Cursor, seg: Segment)
    requires WellFormed(seg) && IsCommandKey(seg.key)
    ensures var (c', ys) := Step(c, seg);
      |ys| == 1 && IsUpperKey(ys[0].key) && WellFormed(ys[0]) &&
      (c'.cx, c'.cy) == EndPoint(c, ys[0]) &&
      (if seg.key in {'M', 'm'} then c'.subx == c'.cx && c'.suby == c'.cy
       else c'.subx == c.subx && c'.suby == c.suby)
  {
    StepKeys(c, seg);
  }

  /** Relative segments: m/l/t/c/q/s shift every coordinate pair by the current point
      taken at the start of the segment; a shifts only its end point and keeps radii,
      rotation and flags; h moves only x and v only y; z closes to the subpath start. */
  lemma StepShiftsRelative(c: Cursor, seg: Segment)
    requires WellFormed(seg) && seg.key in {'m', 'l', 't', 'c', 'q', 's', 'a', 'h', 'v', 'z'}
    ensures var (c', ys) := Step(c, seg);
      |ys| == 1 &&
      (seg.key in {'m', 'l', 't', 'c', 'q', 's'} ==> ys[0].data == ShiftPairs(seg.data, c.cx, c.cy)) &&
      (seg.key == 'a' ==>
        ys[0].data[..5] == seg.data[..5] && ys[0].data[5..] == ShiftPairs(seg.data[5..], c.cx, c.cy)) &&
      (seg.key == 'h' ==> ys[0].data == [seg.data[0] + c.cx] && c'.cy == c.cy) &&
      (seg.key == 'v' ==> ys[0].data == [seg.data[0] + c.cy] && c'.cx == c.cx) &&
      (seg.key == 'z' ==> ys[0] == Segment('Z', []) && c'.cx == c.subx && c'.cy == c.suby)
  {
    if seg.key in {'m', 'l', 't', 'c', 'q', 's'} {
      StepShiftsPairs(c, seg);
    } else if seg.key == 'a' {
      StepShiftsArcEnd(c, seg);
    }
  }

  /** A relative move, line or curve shifts every coordinate pair by the cursor. */
  lemma StepShiftsPairs(c: Cursor, seg: Segment)
    requires WellFormed(seg) && seg.key in {'m', 'l', 't', 'c', 'q', 's'}
    ensures |Step(c, seg).1| == 1 && Step(c, seg).1[0].data == ShiftPairs(seg.data, c.cx, c.cy)
  {
    var d := seg.data;
    if seg.key in {'m', 'l', 't'} {
      assert |d| == 2;
      ShiftTwo(d, c.cx, c.cy);
      StepShiftsTwo(c, seg);
    } else if seg.key == 'c' {
      assert |d| == 6;
      ShiftSix(d, c.cx, c.cy);
      StepShiftsSix(c, seg);
    } else {
      assert |d| == 4;
      ShiftFour(d, c.cx, c.cy);
      StepShiftsFour(c, seg);
    }
  }

  lemma StepShiftsTwo(c: Cursor, seg: Segment)
    requires |seg.data| == 2 && seg.key in {'m', 'l', 't'}
    ensures |Step(c, seg).1| == 1 && Step(c, seg).1[0].data == [seg.data[0] + c.cx, seg.data[1] + c.cy]
  {
  }

  lemma StepShiftsFour(c: Cursor, seg: Segment)
    requires |seg.data| == 4 && seg.key in {'q', 's'}
    ensures |Step(c, seg).1| == 1
    ensures var d := seg.data; Step(c, seg).1[0].data == [d[0] + c.cx, d[1] + c.cy, d[2] + c.cx, d[3] + c.cy]
  {
  }

  lemma StepShiftsSix(c: Cursor, seg: Segment)
    requires |seg.data| == 6 && seg.key == 'c'
    ensures |Step(c, seg).1| == 1
    ensures var d := seg.data;
      Step(c, seg).1[0].data == [d[0] + c.cx, d[1] + c.cy, d[2] + c.cx, d[3] + c.cy, d[4] + c.cx, d[5] + c.cy]
  {
  }

  lemma ShiftTwo(d: seq<real>, dx: real, dy: real)
    requires |d| == 2
    ensures ShiftPairs(d, dx, dy) == [d[0] + dx, d[1] + dy]
  {
    assert ShiftPairs(d[2..], dx, dy) == [];
  }

  lemma ShiftFour(d: seq<real>, dx: real, dy: real)
    requires |d| == 4
    ensures ShiftPairs(d, dx, dy) == [d[0] + dx, d[1] + dy, d[2] + dx, d[3] + dy]
  {
    ShiftTwo(d[2..], dx, dy);
  }

  lemma ShiftSix(d: seq<real>, dx: real, dy: real)
    requires |d| == 6
    ensures ShiftPairs(d, dx, dy) == [d[0] + dx, d[1] + dy, d[2] + dx, d[3] + dy, d[4] + dx, d[5] + dy]
  {
    ShiftFour(d[2..], dx, dy);
  }

  /** A relative arc keeps its radii, rotation and flags and shifts its end point. */
  lemma StepShiftsArcEnd(c: Cursor, seg: Segment)
    requires WellFormed(seg) && seg.key == 'a'
    ensures |Step(c, seg).1| == 1
    ensures Step(c, seg).1[0].data[..5] == seg.data[..5]
    ensures Step(c, seg).1[0].data[5..] == ShiftPairs(seg.data[5..], c.cx, c.cy)
  {
    assert ShiftPairs(seg.data[5..], c.cx, c.cy) == Step(c, seg).1[0].data[5..];
  }

  /** Running a step again, from the same state, on what it emitted reproduces both
      the emitted segment and the new state. */
  lemma StepOnOutput(c: Cursor, seg: Segment)
    requires WellFormed(seg) && IsCommandKey(seg.key)
    ensures var (c', ys) := Step(c, seg);
      |ys| == 1 && WellFormed(ys[0]) && Step(c, ys[0]) == (c', ys)
  {
    StepKeys(c, seg);
  }

  // ---------------------------------------------------------------- properties of the pass

  lemma {:induction false} AbsFromAt(c: Cursor, segs: seq<Segment>, i: nat)
    requires AllWellFormed(segs) && AllRecognised(segs) && i < |segs|
    ensures AllWellFormed(segs[..i])
    ensures AbsFrom(c, segs)[i] == Step(CursorAfter(c, segs[..i]), segs[i]).1[0]
    decreases i
  {
    assert forall k | 0 <= k < i :: segs[..i][k] == segs[k];
    var (c', ys) := Step(c, segs[0]);
    StepKeys(c, segs[0]);
    assert AllWellFormed(segs[1..]) && AllRecognised(segs[1..]) by {
      assert forall k | 0 <= k < |segs| - 1 :: segs[1..][k] == segs[k + 1];
    }
    if i > 0 {
      AbsFromAt(c', segs[1..], i - 1);
      assert segs[..i][1..] == segs[1..][..i - 1];
      assert segs[..i][0] == segs[0];
    }
  }

  /** The i-th output segment is what the i-th input segment becomes from the state
      left by the segments before it. */
  lemma AbsolutizedAt(segs: seq<Segment>, i: nat)
    requires AllWellFormed(segs) && AllRecognised(segs) && i < |segs|
    ensures |Absolutized(segs)| == |segs|
    ensures AllWellFormed(segs[..i])
    ensures var y := Absolutized(segs)[i];
      y.key == ToUpper(segs[i].key) && (IsUpperKey(segs[i].key) ==> y == segs[i])
  {
    AbsFromAt(Origin, segs, i);
    StepKeys(CursorAfter(Origin, segs[..i]), segs[i]);
    if IsUpperKey(segs[i].key) {
      StepCopiesAbsolute(CursorAfter(Origin, segs[..i]), segs[i]);
    }
  }

  /** A path whose every key is absolute comes out of `absolutize` as it went in. */
  lemma AbsoluteKept(segs: seq<Segment>)
    requires AllWellFormed(segs) && forall i | 0 <= i < |segs| :: IsUpperKey(segs[i].key)
    ensures Absolutized(segs) == segs
  {
    if segs != [] {
      assert AllRecognised(segs) by {
        forall i | 0 <= i < |segs| ensures IsCommandKey(segs[i].key) {
          assert IsUpperKey(segs[i].key);
        }
      }
      AbsolutizedAt(segs, 0);
      forall i | 0 <= i < |segs| ensures Absolutized(segs)[i] == segs[i] {
        AbsolutizedAt(segs, i);
      }
    }
  }

  lemma {:induction false} AbsFromIdempotent(c: Cursor, segs: seq<Segment>)
    requires AllWellFormed(segs)
    ensures AllWellFormed(AbsFrom(c, segs))
    ensures AbsFrom(c, AbsFrom(c, segs)) == AbsFrom(c, segs)
    decreases |segs|
  {
    if segs != [] {
      var (c', ys) := Step(c, segs[0]);
      assert AllWellFormed(segs[1..]) by {
        assert forall k | 0 <= k < |segs| - 1 :: segs[1..][k] == segs[k + 1];
      }
      var tail := AbsFrom(c', segs[1..]);
      AbsFromIdempotent(c', segs[1..]);
      StepKeys(c, segs[0]);
      if IsCommandKey(segs[0].key) {
        StepOnOutput(c, segs[0]);
        var out := ys + tail;
        assert out[0] == ys[0] && out[1..] == tail;
      } else {
        assert ys + tail == tail;
      }
    }
  }

  /** `absolutize` is idempotent: its output only holds absolute segments, which it
      copies verbatim while tracking the same current point. */
  lemma AbsolutizeIdempotent(segs: seq<Segment>)
    requires AllWellFormed(segs)
    ensures AllWellFormed(Absolutized(segs))
    ensures Absolutized(Absolutized(segs)) == Absolutized(segs)
  {
    AbsFromIdempotent(Origin, segs);
  }
}
