/** Shared value types of the geometry pipeline (src/Core.h) and a small Option wrapper. */
module Core {

  /** A point `{x, y}`; doubles are modelled as exact reals. */
  datatype Point = Point(x: real, y: real)

  /** A line is an ordered pair of points: `line[0]` is `a`, `line[1]` is `b`. */
  datatype Line = Line(a: Point, b: Point)

  /** The per-call style configuration. The two "disable" toggles are doubles in
      the source and are tested as "non-zero", so they stay reals here. */
  datatype RoughOptions = RoughOptions(
    maxRandomnessOffset: real,
    roughness: real,
    bowing: real,
    disableMultiStroke: real,
    disableMultiStrokeFill: real,
    curveTightness: real,
    curveFitting: real,
    curveStepCount: real,
    hachureAngle: real,
    hachureGap: real,
    strokeWidth: real)

  datatype Option<+T> = None | Some(value: T)

  function Max(a: real, b: real): real { if a < b then b else a }
  function Min(a: real, b: real): real { if b < a then b else a }
  function Abs(a: real): real { if a < 0.0 then -a else a }

  /** `pow(a, 2)`: never negative, and zero only at zero. */
  function Sq(a: real): (r: real)
    ensures r >= 0.0
    ensures r == 0.0 <==> a == 0.0
  {
    Product(a, a)
  }

  /** A product with the sign rules the solver needs spelled out. */
  function Product(a: real, b: real): (r: real)
    ensures (a > 0.0 && b > 0.0) || (a < 0.0 && b < 0.0) ==> r > 0.0
    ensures a == 0.0 || b == 0.0 ==> r == 0.0
  {
    ProductSign(a, b);
    a * b
  }

  lemma ProductSign(a: real, b: real)
    ensures (a > 0.0 && b > 0.0) || (a < 0.0 && b < 0.0) ==> a * b > 0.0
  {
    if a < 0.0 && b < 0.0 {
      PositiveProduct(-a, -b);
      assert a * b == (-a) * (-b);
    } else if a > 0.0 && b > 0.0 {
      PositiveProduct(a, b);
    }
  }

  lemma PositiveProduct(a: real, b: real)
    requires a > 0.0 && b > 0.0
    ensures a * b > 0.0
  {
  }

  /** Taking one more element of a sequence appends that element. */
  lemma TakeSnoc<T>(s: seq<T>, i: nat)
    requires i < |s|
    ensures s[..i + 1] == s[..i] + [s[i]]
  {
  }

  /** Taking every element gives the sequence back. */
  lemma TakeAll<T>(s: seq<T>)
    ensures s[..|s|] == s
  {
  }

  /** Concatenation is associative. */
  lemma ConcatAssoc<T>(a: seq<T>, b: seq<T>, c: seq<T>)
    ensures (a + b) + c == a + (b + c)
  {
  }
}
