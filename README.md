# sketchify geometry core, modelled in Dafny

sketchify is a C++ port of rough.js. It turns shapes into "hand-drawn"
drawing commands: lines, polylines, polygons, rectangles, Catmull-Rom
curves and SVG path data. Each shape is drawn as one or two slightly
jittered cubic Bezier strokes, and the jitter comes from `rand()`.
Polygons can also be filled with hachure lines from a scan-line sweep,
plus connectors that are clipped to the polygon.

This project models the geometry pipeline behind that renderer and proves
properties of it:

- `Parser`: the SVG path-data tokenizer and the path parser, with the
  `PARAMS_COUNT` arity table.
- `Absolutize`: turns relative path commands into absolute ones.
- `Normalize`: reduces a path to `M`, `L`, `C` and `Z`. H/V become lines,
  S/T are reflected, quadratics are degree-elevated, and arcs become cubics.
- `PointsOnCurve`: Bezier flattening by adaptive de Casteljau splitting,
  and Ramer-Douglas-Peucker simplification (`simplify`, `simplifyPoints`).
- `PointsOnPath`: a path string turned into point sets, one per subpath.
- `Geometry`: orientation, segment intersection, line intersection by
  Cramer's rule, the even-odd ray-casting point-in-polygon test, and the
  length of a line.
- `ScanLineHachure`: the edge-table scan-line sweep (`straightHachureLines`)
  and its rotated wrapper (`polygonHachureLines`).
- `HachureFiller`: `fillPolygon` with connectors between consecutive
  hachure lines, cut at the polygon's edges (`splitOnIntersections`).
- `Renderer`: a class whose state is the emitted sequence of drawing
  operations (`ops`, standing for the `Graphics` sink) and the number of
  `rand()` values used so far (`drawn`). For each drawing method the model
  has a specification function, `XDraw(env, k, ...)`, that returns the ops
  and the next `rand()` index. Each method is proved to append exactly
  those ops and to advance `drawn` to that index.

Modelling conventions:

- Code that loops or updates state in the source is a `method` with loops.
  Its `ensures` ties the result to a specification function.
- The properties are lemmas about those specification functions.
- Numbers are mathematical reals.
- `rand()` is an injected stream `env.rand: nat -> nat`: value `k` is the
  k-th call.
- `sqrt` is an injected `env.sqrt`, used only where a length feeds into
  arithmetic. Comparisons of lengths are made on squared lengths.
- Rotation (`rotatePoints`, `rotateLines`) and `arcToCubicCurves` are
  function parameters.
- C++ does not specify the order in which a call's arguments are
  evaluated. When one call makes several `rand()` draws, the model
  evaluates them left to right.

Where the code differs from the design description, the model follows the code:

- `parsePath` loops forever on a number after `Z`/`z` (see Findings).
- `tokenize` returns an empty list, not an error, on an unknown character.
- `cloneOptionsAlterSeed` returns its argument unchanged, so the second
  stroke of a curve uses the same options.
- `solidFillPolygon` emits only the outline moves; it has no fill command.

## Model

| member | source | states |
|---|---|---|
| Core.Sq | src/PointsOnCurve/PointsOnCurve.cpp:21-24 | `pow(a, 2)`: never negative; zero exactly when a is zero |
| Parser.CommandCharsInPathAlphabet | src/PathDataParser/Parser.cpp:38-43 | every character the command pattern accepts is a key of `PARAMS_COUNT`, so `PARAMS_COUNT.at(mode)` never throws on a tokenized command |
| Parser.DigitRun | src/PathDataParser/Parser.cpp:14 | the length of the longest run of digits at the start of the input: all in range are digits, the next character is not |
| Parser.MantissaLength | src/PathDataParser/Parser.cpp:14 | the mantissa alternative of the number pattern matches only numeral characters and, when it matches, contains at least one digit |
| Parser.ExponentLength | src/PathDataParser/Parser.cpp:14 | the optional exponent part matches only numeral characters within the input |
| Parser.NumberLength | src/PathDataParser/Parser.cpp:14 | the number pattern matches (length > 0) exactly when its mantissa does, and consumes only numeral characters |
| Parser.SeparatorRun | src/PathDataParser/Parser.cpp:15 | the whitespace pattern consumes the maximal run of tab, LF, CR, space and comma |
| Parser.Pow10 | src/PathDataParser/Parser.cpp:25 | the decimal scale used by the numeral value (`stod`) is at least 1 |
| Parser.LexStepAt | src/PathDataParser/Parser.cpp:20-33 | one scan step at position i: a command emits one token and advances by 1, otherwise a number emits its value and advances by its match, otherwise separators are skipped |
| Parser.Tokenize | src/PathDataParser/Parser.cpp:11-36 | the while loop returns exactly the scan's tokens, and the empty list when some character matches no pattern |
| Parser.SeparatorCase | src/PathDataParser/Parser.cpp:26-27 | input starting with a separator scans as the input after the whole separator run |
| Parser.SeparatorIgnored | src/PathDataParser/Parser.cpp:26-27 | one leading separator never changes the scan |
| Parser.SeparatorsProduceNoTokens | src/PathDataParser/Parser.cpp:26-32 | any prefix of separators leaves the scan and the token list unchanged |
| Parser.LexCommandThen | src/PathDataParser/Parser.cpp:22-23 | a command letter scans as one command token ahead of the rest's tokens |
| Parser.LexSeparatorThen | src/PathDataParser/Parser.cpp:26-27 | a separator scans as nothing ahead of the rest's tokens |
| Parser.NumeralOfDigits | src/PathDataParser/Parser.cpp:25 | `stod` of a plain run of digits is its decimal value |
| Parser.LexDigitsThen | src/PathDataParser/Parser.cpp:24-25 | a digit run not followed by a digit, point or exponent letter scans as one number token with its decimal value |
| Parser.LexCommandPairThen | src/PathDataParser/Parser.cpp:20-33 | `L10 0`-shaped text followed by a command scans as the command and its two numbers |
| Parser.UnknownCharacterGivesNoTokens | src/PathDataParser/Parser.cpp:28-30 | one character outside every pattern, anywhere in the input, makes the scan fail and `tokenize` return no tokens at all |
| Parser.Params | src/PathDataParser/Parser.cpp:72-78 | the parameters are read exactly when every needed token is a number, and then they are those numbers in order |
| Parser.AfterCommand | src/PathDataParser/Parser.cpp:65-68 | taking a command token as the mode consumes at most one token and appends no segment |
| Parser.ReadSegment | src/PathDataParser/Parser.cpp:69-92 | a successful read appends exactly one segment and keeps the segments before it |
| Parser.ReadSegmentOk | src/PathDataParser/Parser.cpp:69-86 | with enough number tokens the read consumes `PARAMS_COUNT[mode]` tokens, appends `Segment(mode, params)` and turns M into L and m into l |
| Parser.LoopBody | src/PathDataParser/Parser.cpp:61-93 | one iteration as written, when it succeeds, appends exactly one segment and keeps the earlier ones |
| Parser.LoopBodyProgress | src/PathDataParser/Parser.cpp:61-93 | every successful iteration other than a number right after Z/z moves the iterator forward |
| Parser.ReadParams | src/PathDataParser/Parser.cpp:72-78 | the inner loop returns the parameters when all `count` tokens are numbers and fails on the first command token |
| Parser.ParsePath | src/PathDataParser/Parser.cpp:45-96 | `parsePath` returns what tokenizing then parsing the tokens gives, with the source's error cases as errors |
| Parser.ParseTokenList | src/PathDataParser/Parser.cpp:50-95 | the loop over the tokens computes the parse of the token list: empty tokens give no segments; otherwise a synthetic `M 0 0` comes first unless the path starts with M/m |
| Parser.ParseIteration | src/PathDataParser/Parser.cpp:62-92 | one iteration is the source's loop body, except that a number after Z/z is an error, and every successful iteration moves the iterator forward |
| Parser.ParseFromKeepsArity | src/PathDataParser/Parser.cpp:80-81 | the rest of the parse only adds segments whose data length is their key's arity |
| Parser.ParsedSegmentsHaveArity | src/PathDataParser/Parser.cpp:80-81 | every segment of a successful parse has exactly `PARAMS_COUNT[key]` numbers |
| Parser.ParseFromExtends | src/PathDataParser/Parser.cpp:61-93 | the parse only appends: the segments so far are a prefix of the result |
| Parser.FirstSegmentIsMove | src/PathDataParser/Parser.cpp:56-59 | a parsed path starts with the M or m it begins with, and otherwise with the synthetic `M 0 0` |
| Parser.EmptyTokensGiveNoSegments | src/PathDataParser/Parser.cpp:50-52 | an empty token list (empty input, only separators, or a rejected string) parses to no segments, not to an error |
| Parser.ImplicitLineAfterMove | src/PathDataParser/Parser.cpp:83-86 | after `M x y` (`m x y`) a further bare coordinate pair parses as `L` (`l`) |
| Parser.EndsShortIsError | src/PathDataParser/Parser.cpp:65-92 | "Path data ended short": fewer tokens left after a command letter than its arity is an error |
| Parser.EndsShortInImplicitRepeat | src/PathDataParser/Parser.cpp:65-92 | the same error for an implicit repeat: a number in a mode that needs more numbers than remain |
| Parser.MoveThenLoneNumberEndsShort | src/PathDataParser/Parser.cpp:80-91 | `M0 0 1`: after the move the mode is L, one number is left where two are needed, and parsing fails with "ended short" |
| Parser.CommandAsParamIsError | src/PathDataParser/Parser.cpp:73-75 | "Param not a number": a command token where a number is expected is an error |
| Parser.ReadSegmentNotANumber | src/PathDataParser/Parser.cpp:72-78 | a segment read fails with the not-a-number error when any needed token is a command |
| Parser.CloseThenNumberNeverAdvances | src/PathDataParser/Parser.cpp:65-86 | as written, after Z/z a number token is never consumed: for every k, k iterations leave the iterator and mode unchanged and add k empty segments |
| Parser.CloseThenNumberIsError | src/PathDataParser/Parser.cpp:65-86 | the corrected parser reports a number after Z/z as an error instead of looping |
| Absolutize.ArityIsParamsCount | src/PathDataParser/Parser.cpp:38-43 | the arity function has the same keys and the same counts as `PARAMS_COUNT` |
| Absolutize.ShiftPairs | src/PathDataParser/Absolutize.cpp:19-58 | a relative coordinate list becomes absolute when every x is shifted by cx and every y by cy |
| Absolutize.AbsFrom | src/PathDataParser/Absolutize.cpp:11-114 | the loop emits only well-formed upper-case segments, one per recognised input segment, and never more than it reads |
| Absolutize.AbsolutizeSegment | src/PathDataParser/Absolutize.cpp:12-113 | the switch body updates `cx`, `cy`, `subx`, `suby` and appends exactly what one step specifies |
| Absolutize.AbsolutizePath | src/PathDataParser/Absolutize.cpp:6-116 | `absolutize` returns the absolutized path |
| Absolutize.AbsFromStep | src/PathDataParser/Absolutize.cpp:11-114 | the output is the first segment's output followed by the rest, from the state after the first |
| Absolutize.StepKeys | src/PathDataParser/Absolutize.cpp:12-113 | a recognised key gives one well-formed segment with the upper-case key; an unrecognised one gives nothing and leaves the state alone |
| Absolutize.StepCopiesAbsolute | src/PathDataParser/Absolutize.cpp:14-107 | absolute M, L, C, Q, A, H, V, S, T and Z are copied verbatim |
| Absolutize.StepEndPoint | src/PathDataParser/Absolutize.cpp:14-112 | after every segment the current point is the end of the absolute segment; only M/m move the subpath start, to the new point |
| Absolutize.StepShiftsRelative | src/PathDataParser/Absolutize.cpp:19-112 | m, l, t, c, q and s shift every pair by the current point; a shifts only its end point and keeps radii, rotation and flags; h moves x, v moves y; z returns to the subpath start |
| Absolutize.StepShiftsPairs | src/PathDataParser/Absolutize.cpp:19-58 | relative moves, lines and curves shift every coordinate pair by the current point |
| Absolutize.StepShiftsArcEnd | src/PathDataParser/Absolutize.cpp:64-68 | a relative arc keeps its first five parameters and shifts its end point |
| Absolutize.StepOnOutput | src/PathDataParser/Absolutize.cpp:12-113 | stepping again, from the same state, on the emitted segment gives the same segment and the same new state |
| Absolutize.AbsolutizedAt | src/PathDataParser/Absolutize.cpp:11-114 | output i has the upper-case form of input i's key, and equals input i when that was already absolute |
| Absolutize.AbsoluteKept | src/PathDataParser/Absolutize.cpp:14-107 | a path made only of absolute commands comes out unchanged |
| Absolutize.AbsFromIdempotent | src/PathDataParser/Absolutize.cpp:11-114 | from any state, running the loop on its own output gives that output again |
| Absolutize.AbsolutizeIdempotent | src/PathDataParser/Absolutize.cpp:6-116 | `absolutize` is idempotent |
| Normalize.CurveSegments | src/PathDataParser/Normalize.cpp:117-124 | each curve of an arc becomes one C segment, in order |
| Normalize.SwitchKeys | src/PathDataParser/Normalize.cpp:27-133 | every case of the switch emits only M, L, C or Z segments, each with its key's arity |
| Normalize.NormalConcat | src/PathDataParser/Normalize.cpp:25-135 | appending two normal segment lists keeps the result normal |
| Normalize.NormFrom | src/PathDataParser/Normalize.cpp:25-135 | whatever the loop emits is normal: only M, L, C and Z, with the right data lengths |
| Normalize.Normalized | src/PathDataParser/Normalize.cpp:17-137 | `normalize` returns a normal path |
| Normalize.NormalizeSegment | src/PathDataParser/Normalize.cpp:26-134 | the loop body updates the seven loop variables and appends what one step specifies |
| Normalize.CurveSegmentsAppend | src/PathDataParser/Normalize.cpp:117-124 | one more curve appends one more C segment |
| Normalize.AppendCurves | src/PathDataParser/Normalize.cpp:117-124 | the loop over an arc's curves appends each as a C segment |
| Normalize.CurveSegmentsTake | src/PathDataParser/Normalize.cpp:117-124 | the curve loop's invariant steps by one C segment per curve |
| Normalize.CurvesAreNormal | src/PathDataParser/Normalize.cpp:117-124 | the segments made from an arc's curves are normal C segments |
| Normalize.NormFromStep | src/PathDataParser/Normalize.cpp:25-135 | the loop's output is the first step's output followed by the rest |
| Normalize.NormalizePath | src/PathDataParser/Normalize.cpp:17-137 | the loop returns the normalized path |
| Normalize.NormFromKeepsNormal | src/PathDataParser/Normalize.cpp:28-43 | from any state, normal input passes through unchanged |
| Normalize.NormalPassesThrough | src/PathDataParser/Normalize.cpp:28-132 | each M, L, C and Z passes through as it came in |
| Normalize.NormalizeIdempotent | src/PathDataParser/Normalize.cpp:17-137 | `normalize` is idempotent |
| Normalize.HorizontalVerticalAsLines | src/PathDataParser/Normalize.cpp:44-51 | H (V) becomes L to the new x (y), keeping the other coordinate of the current point |
| Normalize.SmoothCubicReflects | src/PathDataParser/Normalize.cpp:52-68 | S right after C or S mirrors the previous second control point through the joint, so the tangent is continuous; otherwise the first control point is the current point |
| Normalize.SmoothQuadraticReflects | src/PathDataParser/Normalize.cpp:69-89 | T right after Q mirrors the Q's control point through the joint and emits the degree elevation of that quadratic |
| Normalize.LoneQuadraticTurnsStraight | src/PathDataParser/Normalize.cpp:69-89 | T after anything but Q or T uses the current point as its control point |
| Normalize.QuadraticBecomesCubic | src/PathDataParser/Normalize.cpp:90-102 | Q becomes C with control points at two thirds of the way to the quadratic control point, from each end |
| Normalize.ElevationIsExact | src/PathDataParser/Normalize.cpp:79-83 | the elevated cubic traces exactly the same points as the quadratic, for every parameter value |
| Normalize.ArcCases | src/PathDataParser/Normalize.cpp:103-127 | a zero radius gives a straight degenerate cubic; an end point equal to the current point gives nothing; otherwise the arc's cubics are emitted, with absolute radii and flags above 0.5 |
| Normalize.CloseReturnsToSubpathStart | src/PathDataParser/Normalize.cpp:28-134 | Z emits Z and returns the current point to the subpath start; only M moves the subpath start; `lastType` is always the key just handled |
| PointsOnCurve.DistanceSq | src/PointsOnCurve/PointsOnCurve.cpp:21-24 | the squared distance is never negative and is zero exactly when the points coincide |
| PointsOnCurve.Lerp | src/PointsOnCurve/PointsOnCurve.cpp:38-44 | the interpolation is at the first point for t = 0 and at the second for t = 1 |
| PointsOnCurve.SegmentParameter | src/PointsOnCurve/PointsOnCurve.cpp:33-34 | the projection parameter is clamped to [0, 1] |
| PointsOnCurve.DistanceToSegmentSq | src/PointsOnCurve/PointsOnCurve.cpp:27-36 | a zero-length segment gives the distance to its point; otherwise the distance to the clamped projection |
| PointsOnCurve.QuadForm | src/PointsOnCurve/PointsOnCurve.cpp:27-36 | the squared distance to the point at parameter t of the line is a quadratic in t |
| PointsOnCurve.SegmentDistanceIsNearest | src/PointsOnCurve/PointsOnCurve.cpp:27-36 | the result is at most the squared distance to any point of the line vw, so on the segment it is the nearest-point distance |
| PointsOnCurve.Flatness | src/PointsOnCurve/PointsOnCurve.cpp:47-68 | the flatness measure is never negative |
| PointsOnCurve.Wiggle | src/PointsOnCurve/PointsOnCurve.cpp:47-68 | the sum of squared second differences the flatness is bounded by is never negative |
| PointsOnCurve.FlatnessBound | src/PointsOnCurve/PointsOnCurve.cpp:47-68 | flatness is at most five times the wiggle |
| PointsOnCurve.FlatnessOfDifferences | src/PointsOnCurve/PointsOnCurve.cpp:47-68 | the same bound written over the second differences |
| PointsOnCurve.HalvesShrink | src/PointsOnCurve/PointsOnCurve.cpp:86-102 | each half of the split has at most 3/32 of the whole's wiggle |
| PointsOnCurve.LeftHalfBound | src/PointsOnCurve/PointsOnCurve.cpp:86-102 | the left half's wiggle bound in terms of the whole's second differences |
| PointsOnCurve.RightHalfBound | src/PointsOnCurve/PointsOnCurve.cpp:86-102 | the right half's wiggle bound in terms of the whole's second differences |
| PointsOnCurve.SplitMeasureDrops | src/PointsOnCurve/PointsOnCurve.cpp:70-105 | for a positive tolerance the recursion's measure drops by at least one for each half of a piece that is not flat, so the splitting terminates |
| PointsOnCurve.SplitIsDeCasteljau | src/PointsOnCurve/PointsOnCurve.cpp:86-102 | the split is de Casteljau at t = 0.5: the halves share the curve's midpoint, and each half traces its half of the curve |
| PointsOnCurve.PowerBasis | src/PointsOnCurve/PointsOnCurve.cpp:47-68 | the cubic Bezier coordinate in power-basis form |
| PointsOnCurve.Reversed | src/PointsOnCurve/PointsOnCurve.cpp:86-102 | running a cubic backwards swaps its control points |
| PointsOnCurve.Flatten | src/PointsOnCurve/PointsOnCurve.cpp:70-105 | the recursion only appends to the output; the last point appended is the piece's end point; into an empty output the first point is its start |
| PointsOnCurve.GetPointsOnBezierCurveWithSplitting | src/PointsOnCurve/PointsOnCurve.cpp:70-105 | the recursive method appends exactly the flattening of the piece at `offset` |
| PointsOnCurve.HalvesOfSplit | src/PointsOnCurve/PointsOnCurve.cpp:86-102 | the midpoints the source computes are the control points of the two halves |
| PointsOnCurve.ScanProps | src/PointsOnCurve/PointsOnCurve.cpp:125-135 | the max loop keeps the largest squared chord distance so far and the first index reaching it |
| PointsOnCurve.FarthestProps | src/PointsOnCurve/PointsOnCurve.cpp:120-136 | the search finds the first interior point farthest from the chord; when every interior point is on the chord the distance is 0 and the index stays 1 |
| PointsOnCurve.SplitShrinks | src/PointsOnCurve/PointsOnCurve.cpp:138-140 | a split happens only at an interior point, so both sub-ranges are strictly shorter |
| PointsOnCurve.FarthestPoint | src/PointsOnCurve/PointsOnCurve.cpp:122-135 | the loop computes the farthest point and its squared distance |
| PointsOnCurve.SimplifyPoints | src/PointsOnCurve/PointsOnCurve.cpp:120-149 | the recursive method appends exactly what Ramer-Douglas-Peucker keeps |
| PointsOnCurve.Simplify | src/PointsOnCurve/PointsOnCurve.cpp:107-110 | `simplify` is Ramer-Douglas-Peucker over the whole list into an empty output |
| PointsOnCurve.RdpIndices | src/PointsOnCurve/PointsOnCurve.cpp:120-149 | the kept indices start at the range's first index, end at its last, and stay inside the range |
| PointsOnCurve.RdpIndicesIncrease | src/PointsOnCurve/PointsOnCurve.cpp:120-149 | the kept indices are strictly increasing: each point is kept at most once and in its original order |
| PointsOnCurve.Pick | src/PointsOnCurve/PointsOnCurve.cpp:141-146 | picking gives the points at the given indices, in order |
| PointsOnCurve.RdpPicks | src/PointsOnCurve/PointsOnCurve.cpp:120-149 | the recursion appends exactly the kept points, leaving out the range's first point when the output already ends with it |
| PointsOnCurve.CloseRangeCollapses | src/PointsOnCurve/PointsOnCurve.cpp:141-146 | a range with no point farther than epsilon from its chord keeps only its two end points |
| PointsOnCurve.FarRangeKeepsFarthest | src/PointsOnCurve/PointsOnCurve.cpp:137-140 | a range with a point farther than epsilon splits, and keeps its farthest point |
| PointsOnCurve.SimplifyKeepsEnds | src/PointsOnCurve/PointsOnCurve.cpp:107-110 | `simplify` keeps the first and the last point and a strictly increasing selection of the points between |
| PointsOnCurve.NegativeEpsilonRecursesForever | src/PointsOnCurve/PointsOnCurve.cpp:137-140 | with a negative epsilon a two-point range always splits into itself (start 0, index 1, end 2) |
| PointsOnCurve.FlattenPieces | src/PointsOnCurve/PointsOnCurve.cpp:154-158 | the flattening of n pieces starts at the first control point and ends at the end point of piece n |
| PointsOnCurve.FlattenPiecesStep | src/PointsOnCurve/PointsOnCurve.cpp:154-158 | one more loop iteration appends the next piece's flattening |
| PointsOnCurve.PointsOnBezierCurves | src/PointsOnCurve/PointsOnCurve.cpp:151-163 | the method flattens every whole piece in order, then simplifies when the distance is positive |
| PointsOnCurve.PointsOnBezierEnds | src/PointsOnCurve/PointsOnCurve.cpp:151-163 | the result has at least two points, from the first control point to the end of the last whole piece, with or without simplification |
| PointsOnCurve.PieceEndsKept | src/PointsOnCurve/PointsOnCurve.cpp:154-158 | the end point of every piece is in the output, at the end of that piece's share |
| PointsOnPath.ParsedWellFormed | src/PointsOnPath/PointsOnPath.cpp:15-16 | parsed and absolutized segments carry the data length their keys need, as `normalize` reads them |
| PointsOnPath.AppendPendingCurve | src/PointsOnPath/PointsOnPath.cpp:23-29 | the lambda flushes the pending curve into the current set |
| PointsOnPath.AppendPendingPoints | src/PointsOnPath/PointsOnPath.cpp:31-37 | the lambda flushes the curve, then finishes the current set when it is non-empty |
| PointsOnPath.VisitSegment | src/PointsOnPath/PointsOnPath.cpp:40-63 | the loop body is one step of the walk |
| PointsOnPath.VisitMove | src/PointsOnPath/PointsOnPath.cpp:41-45 | M is one step of the walk |
| PointsOnPath.VisitLine | src/PointsOnPath/PointsOnPath.cpp:46-49 | L is one step of the walk |
| PointsOnPath.VisitCurve | src/PointsOnPath/PointsOnPath.cpp:50-58 | C is one step of the walk |
| PointsOnPath.VisitClose | src/PointsOnPath/PointsOnPath.cpp:59-62 | Z is one step of the walk |
| PointsOnPath.PointsOnPath | src/PointsOnPath/PointsOnPath.cpp:13-79 | `pointsOnPath` parses, absolutizes and normalizes the path, walks it, finishes the last set, and simplifies each set when the distance is non-zero; a parse error propagates |
| PointsOnPath.WalkSegments | src/PointsOnPath/PointsOnPath.cpp:39-65 | the segment loop and the final flush compute the point sets |
| PointsOnPath.SimplifySets | src/PointsOnPath/PointsOnPath.cpp:71-78 | the loop simplifies each set in order |
| PointsOnPath.FlushKeepsTidy | src/PointsOnPath/PointsOnPath.cpp:23-37 | flushing keeps the walk tidy: the pending curve is empty or has 1 + 3k points, and no finished set is empty |
| PointsOnPath.VisitKeepsTidy | src/PointsOnPath/PointsOnPath.cpp:40-63 | every segment keeps the walk tidy |
| PointsOnPath.WalkKeepsTidy | src/PointsOnPath/PointsOnPath.cpp:39-64 | the whole walk stays tidy |
| PointsOnPath.SetsAreNonEmpty | src/PointsOnPath/PointsOnPath.cpp:31-37 | no returned point set is empty |
| PointsOnPath.FlushCurveClears | src/PointsOnPath/PointsOnPath.cpp:23-29 | flushing clears the pending curve; it adds points only for four or more control points, and then they run from the first control point to the last |
| PointsOnPath.MoveStartsSubpath | src/PointsOnPath/PointsOnPath.cpp:41-45 | M finishes the current set, pending curve included, and starts a new one holding just the move point |
| PointsOnPath.LineAppendsEndPoint | src/PointsOnPath/PointsOnPath.cpp:46-49 | L flushes the pending curve and appends its end point |
| PointsOnPath.CubicExtendsPending | src/PointsOnPath/PointsOnPath.cpp:50-58 | C extends the pending list by its three points, an empty list first seeded with the last point (or the subpath start), so it keeps 1 + 3k points |
| PointsOnPath.CloseAppendsStart | src/PointsOnPath/PointsOnPath.cpp:59-62 | Z flushes the pending curve and appends the subpath start point |
| PointsOnPath.SimplifyAllKeepsEnds | src/PointsOnPath/PointsOnPath.cpp:71-78 | simplification keeps every set, non-empty, with its first and last point |
| PointsOnPath.SimplifiedEnds | src/PointsOnPath/PointsOnPath.cpp:71-78 | simplifying one non-empty set keeps its first and last point |
| PointsOnPath.Vertices | src/PointsOnPath/PointsOnPath.cpp:46-62 | the points a run of lines and closes adds, one per segment |
| PointsOnPath.PolylineWalk | src/PointsOnPath/PointsOnPath.cpp:46-62 | with no curve pending, lines and closes only extend the current set by their vertices, in order |
| PointsOnPath.VerticesCons | src/PointsOnPath/PointsOnPath.cpp:46-62 | the vertices of a run are the first segment's vertex followed by the rest's |
| PointsOnPath.PolylineWellFormed | src/PointsOnPath/PointsOnPath.cpp:46-62 | a run of well-formed lines and closes is well-formed input to the walk |
| PointsOnPath.PolylineStep | src/PointsOnPath/PointsOnPath.cpp:46-62 | a line or close at the head of a run adds just its vertex before the rest |
| PointsOnPath.PolylineTail | src/PointsOnPath/PointsOnPath.cpp:46-62 | the tail of a run is a run, and its head is a well-formed L or Z |
| PointsOnPath.WalkStep | src/PointsOnPath/PointsOnPath.cpp:39-64 | the walk is the first step followed by the walk of the rest |
| PointsOnPath.VisitVertex | src/PointsOnPath/PointsOnPath.cpp:46-62 | with no curve pending, one line or close adds just its vertex |
| PointsOnPath.SinglePolylineSets | src/PointsOnPath/PointsOnPath.cpp:39-65 | a move followed by lines and closes gives one set: the move point, then the vertices |
| PointsOnPath.SquareWalk | src/PointsOnPath/PointsOnPath.cpp:39-65 | the closed square gives one set: its four corners and the start again |
| PointsOnPath.ParseAdvances | src/PathDataParser/Parser.cpp:61-93 | one successful iteration that moves forward hands the rest of the parse over to the next state |
| PointsOnPath.SquareStep | src/PathDataParser/Parser.cpp:65-86 | one corner of the square, a command and two numbers, reads as one segment in mode L |
| PointsOnPath.SquareFirstCorners | src/PathDataParser/Parser.cpp:61-93 | the square's M and first L are read in two iterations |
| PointsOnPath.SquareLastCorners | src/PathDataParser/Parser.cpp:61-93 | the square's second and third L are read in two iterations |
| PointsOnPath.SquareCloses | src/PathDataParser/Parser.cpp:61-93 | the closing Z takes no numbers and ends the token list |
| PointsOnPath.SquareParses | src/PathDataParser/Parser.cpp:45-96 | the tokens of `M0 0L10 0L10 10L0 10Z` parse to the square's five segments |
| PointsOnPath.SquareIsAbsolute | src/PathDataParser/Absolutize.cpp:6-116 | the square passes through `absolutize` unchanged |
| PointsOnPath.SquareIsNormal | src/PathDataParser/Normalize.cpp:17-137 | the square passes through `normalize` unchanged |
| PointsOnPath.SquareShapeTokenizes | src/PathDataParser/Parser.cpp:11-36 | the square's text with any digit runs for `0` and `10` scans to its thirteen tokens |
| PointsOnPath.SquareTokenizes | src/PathDataParser/Parser.cpp:11-36 | `tokenize("M0 0L10 0L10 10L0 10Z")` is exactly the square's thirteen tokens |
| PointsOnPath.SquarePointsOnPath | src/PointsOnPath/PointsOnPath.cpp:13-79 | `pointsOnPath("M0 0L10 0L10 10L0 10Z", 1, 0)` is one set: (0,0), (10,0), (10,10), (0,10), (0,0), whatever arc conversion is injected |
| Geometry.Orientation | src/Geometry.h:111-118 | 0, 1 or 2 for collinear, clockwise and counter-clockwise, by the sign of the cross product |
| Geometry.OrientationReversed | src/Geometry.h:111-118 | walking the triple backwards swaps clockwise and counter-clockwise |
| Geometry.OrientationCyclic | src/Geometry.h:111-118 | starting at another vertex keeps the turn direction |
| Geometry.PointsOnLineAreCollinear | src/Geometry.h:111-118 | every point of the line through p and q is collinear with them |
| Geometry.RepeatedPointIsCollinear | src/Geometry.h:111-118 | a triple that repeats an end point is collinear |
| Geometry.OnSegment | src/Geometry.h:97-105 | q is on segment pr exactly when it lies in the segment's bounding box |
| Geometry.OnSegmentEnds | src/Geometry.h:97-105 | both end points pass, and the test ignores the segment's direction |
| Geometry.DoIntersectSymmetric | src/Geometry.h:121-153 | the intersection test does not depend on which segment comes first |
| Geometry.SharedEndpointIntersects | src/Geometry.h:121-153 | segments sharing an end point intersect |
| Geometry.LineIntersection | src/Geometry.h:59-69 | no intersection exactly when the determinant is zero; otherwise the point returned lies on both lines |
| Geometry.CramerPointOnBothLines | src/Geometry.h:59-69 | the Cramer point is collinear with a-b and with c-d |
| Geometry.OnLineByEquation | src/Geometry.h:59-69 | a point that satisfies the line equation of a-b is collinear with a and b |
| Geometry.CramerSolves | src/Geometry.h:59-69 | Cramer's rule solves both line equations |
| Geometry.CrossIsLineEquation | src/Geometry.h:59-69 | the orientation's cross product is the line equation of `lineIntersection`, evaluated at the third point |
| Geometry.LineLengthSq | src/Geometry.h:52-57 | the squared length is never negative and is zero exactly for a degenerate line |
| Geometry.DegeneratePolygonContainsNothing | src/Geometry.h:76-78 | fewer than three vertices contain no point |
| Geometry.Crossings | src/Geometry.h:82-91 | the number of hit edges is at most the number of edges scanned |
| Geometry.ParityDecides | src/Geometry.h:82-93 | with no hit edge collinear with the point, the answer is the parity of the number of hits |
| Geometry.ScanEdgesStep | src/Geometry.h:82-91 | an edge not collinear with the point adds its hit to the count |
| Geometry.FirstTouchDecides | src/Geometry.h:84-89 | the first hit edge collinear with the point decides: inside exactly when the point lies on that edge |
| Geometry.IsPointInPolygon | src/Geometry.h:71-94 | the counting loop with its early return computes the ray-casting answer |
| Geometry.SquareContainsCentre | src/Geometry.h:71-94 | the centre of the 10x10 square is inside |
| Geometry.CollinearStartHits | src/Geometry.h:121-153 | a segment is hit when the other's start is collinear with it and inside its bounding box |
| Geometry.RayAlongEdge | src/Geometry.h:82-91 | a rightward ray from a point of a horizontal edge hits that edge, collinearly |
| Geometry.OnHorizontalFirstEdge | src/Geometry.h:71-94 | a point on a horizontal first edge counts as inside |
| Geometry.SquareContainsBottomEdge | src/Geometry.h:71-94 | every point of the square's bottom edge counts as inside |
| Geometry.SquareContainsEdgePoint | src/Geometry.h:71-94 | (5, 0) counts as inside the square |
| Geometry.SquareExcludesRightPoint | src/Geometry.h:71-94 | a point to the right of the square is outside |
| ScanLineHachure.Round | src/fillers/ScanLineHachure.cpp:32 | C `round`: an integer within 0.5 of x, halves away from zero |
| ScanLineHachure.HalfUp | src/fillers/ScanLineHachure.cpp:32 | `floor(x + 0.5)`: an integer in (x - 0.5, x + 0.5] |
| ScanLineHachure.RoundIsOdd | src/fillers/ScanLineHachure.cpp:32 | rounding commutes with negation |
| ScanLineHachure.Gap | src/fillers/ScanLineHachure.cpp:52-56 | the effective gap is `hachureGap`, or four stroke widths when it is negative, and never below 0.1 |
| ScanLineHachure.Close | src/fillers/ScanLineHachure.cpp:47-49 | the polygon is closed by repeating its first vertex when the last differs from it |
| ScanLineHachure.EdgeOf | src/fillers/ScanLineHachure.cpp:59-72 | an edge entry runs from the lower end point at its x to the upper one |
| ScanLineHachure.EdgeTable | src/fillers/ScanLineHachure.cpp:59-72 | at most one edge per vertex pair, each with ymin < ymax |
| ScanLineHachure.EdgeTableOfSlopedPolygon | src/fillers/ScanLineHachure.cpp:59-72 | without horizontal edges every vertex pair gives the edge at its index |
| ScanLineHachure.FlatPolygonHasNoEdges | src/fillers/ScanLineHachure.cpp:59-72 | a polygon of horizontal edges has an empty edge table |
| ScanLineHachure.BuildEdges | src/fillers/ScanLineHachure.cpp:59-72 | the loop builds the edge table |
| ScanLineHachure.AsWrittenAgreesOffTies | src/fillers/ScanLineHachure.cpp:74-91 | the written comparator agrees with the strict one except on equal keys |
| ScanLineHachure.AsWrittenIsNotStrict | src/fillers/ScanLineHachure.cpp:87-89 | for the triangle (0,0), (5,10), (-5,10) the written comparator puts each of two edges before the other |
| ScanLineHachure.EdgeLessIsStrict | src/fillers/ScanLineHachure.cpp:74-91 | the intended comparator is a strict weak ordering |
| ScanLineHachure.InsertEdge | src/fillers/ScanLineHachure.cpp:74-91 | insertion keeps the table sorted and adds exactly the entry |
| ScanLineHachure.HeadBoundsEdges | src/fillers/ScanLineHachure.cpp:74-91 | inserting after the head of a sorted table keeps the head first |
| ScanLineHachure.SortEdges | src/fillers/ScanLineHachure.cpp:74-91 | the sorted table is ordered by (ymin, x, ymax) and a permutation of the input |
| ScanLineHachure.ActiveLessIsByX | src/fillers/ScanLineHachure.cpp:118-123 | the active-set comparator is exactly "strictly smaller x" |
| ScanLineHachure.InsertByX | src/fillers/ScanLineHachure.cpp:118-123 | insertion keeps the active set sorted by x and adds exactly the entry |
| ScanLineHachure.ConsSortedX | src/fillers/ScanLineHachure.cpp:118-123 | an entry no larger than the head extends a sorted set |
| ScanLineHachure.HeadBoundsX | src/fillers/ScanLineHachure.cpp:118-123 | inserting an entry of larger x keeps the head's x a lower bound |
| ScanLineHachure.SortByX | src/fillers/ScanLineHachure.cpp:118-123 | the active set sorted by x is a permutation of the input |
| ScanLineHachure.Started | src/fillers/ScanLineHachure.cpp:100-110 | the leading pending edges with ymin <= y, up to the first that starts above y |
| ScanLineHachure.StartedCount | src/fillers/ScanLineHachure.cpp:100-110 | the search loop, with `ix` starting at the wrapped -1, counts the started edges |
| ScanLineHachure.Activate | src/fillers/ScanLineHachure.cpp:102-110 | each started edge joins the active set tagged with the current y |
| ScanLineHachure.Live | src/fillers/ScanLineHachure.cpp:111-116 | `erase_if` keeps exactly the active edges with ymax > y |
| ScanLineHachure.ScanLine | src/fillers/ScanLineHachure.cpp:126-139 | every scan line is horizontal at height y |
| ScanLineHachure.PairLines | src/fillers/ScanLineHachure.cpp:126-139 | one line per pair of active edges 0-1, 2-3, ... |
| ScanLineHachure.FillBetween | src/fillers/ScanLineHachure.cpp:126-139 | the fill loop emits the paired scan lines |
| ScanLineHachure.PairsStep | src/fillers/ScanLineHachure.cpp:126-139 | the fill loop's invariant advances by one pair |
| ScanLineHachure.PairsLeftOver | src/fillers/ScanLineHachure.cpp:126-139 | fewer than two edges left make no line |
| ScanLineHachure.Advance | src/fillers/ScanLineHachure.cpp:142-144 | each active edge's x moves by gap times its inverse slope; nothing else changes |
| ScanLineHachure.AdvanceEdges | src/fillers/ScanLineHachure.cpp:142-144 | the in-place loop advances every active edge |
| ScanLineHachure.PendingAfterStep | src/fillers/ScanLineHachure.cpp:100-110 | the edges still pending start above the current scan line and stay in ascending ymin |
| ScanLineHachure.SuffixBounded | src/fillers/ScanLineHachure.cpp:100-110 | a suffix of an ascending table that starts above y stays above y |
| ScanLineHachure.SuffixAscending | src/fillers/ScanLineHachure.cpp:100-110 | a suffix of an ascending table is ascending |
| ScanLineHachure.JoinedBounded | src/fillers/ScanLineHachure.cpp:100-110 | edges joining the active set end by the top of the table |
| ScanLineHachure.ActiveAfterStep | src/fillers/ScanLineHachure.cpp:111-144 | after the erase, the sort and the advance, every active edge ends above the line just filled and by the top |
| ScanLineHachure.SortedLiveBounded | src/fillers/ScanLineHachure.cpp:111-123 | the live edges, sorted, end above y and by the top |
| ScanLineHachure.AdvanceKeepsEnds | src/fillers/ScanLineHachure.cpp:142-144 | advancing moves only x, so the edge ends stay bounded |
| ScanLineHachure.StepKeepsInv | src/fillers/ScanLineHachure.cpp:99-145 | one sweep iteration keeps the sweep invariant |
| ScanLineHachure.MeasureBounded | src/fillers/ScanLineHachure.cpp:99-145 | while edges remain, the termination measure of the sweep is positive |
| ScanLineHachure.TopOf | src/fillers/ScanLineHachure.cpp:59-72 | an upper bound of every edge's ymax |
| ScanLineHachure.InitialInv | src/fillers/ScanLineHachure.cpp:92-98 | the sorted table with y at its first ymin satisfies the sweep invariant |
| ScanLineHachure.SweepUnfolds | src/fillers/ScanLineHachure.cpp:99-145 | the sweep is its first iteration's lines followed by the rest |
| ScanLineHachure.SweepStep | src/fillers/ScanLineHachure.cpp:100-144 | the loop body computes one sweep step: started edges in, finished out, sorted, filled, y and x advanced |
| ScanLineHachure.StepParts | src/fillers/ScanLineHachure.cpp:100-144 | one step in terms of its started count and its sorted live edges |
| ScanLineHachure.RunSweep | src/fillers/ScanLineHachure.cpp:98-145 | the sweep loop from y at the first ymin returns the sweep's lines |
| ScanLineHachure.StraightHachureLines | src/fillers/ScanLineHachure.cpp:44-148 | `straightHachureLines` closes the polygon, builds and sorts the edge table, and sweeps |
| ScanLineHachure.SweepEdges | src/fillers/ScanLineHachure.cpp:74-145 | sorting the table and running the sweep over it |
| ScanLineHachure.RisingConcat | src/fillers/ScanLineHachure.cpp:99-145 | lines at y followed by lines rising from above y rise from y |
| ScanLineHachure.StepEmitsAtY | src/fillers/ScanLineHachure.cpp:126-141 | one iteration emits lines at its own y and moves y up by the gap |
| ScanLineHachure.SweepOrdered | src/fillers/ScanLineHachure.cpp:99-145 | every line of the sweep is horizontal, none below the start, in non-decreasing height |
| ScanLineHachure.HachureOrdered | src/fillers/ScanLineHachure.cpp:44-148 | the hachure lines are horizontal and come in non-decreasing y |
| ScanLineHachure.DegeneratePolygonHasNoHachure | src/fillers/ScanLineHachure.cpp:51-94 | fewer than three vertices after closing, or no sloped edge, gives no lines |
| ScanLineHachure.RotateAll | src/fillers/ScanLineHachure.cpp:33-35 | every vertex rotated about the centre, in order |
| ScanLineHachure.RotateLines | src/fillers/ScanLineHachure.cpp:37-39 | both ends of every line rotated, in order |
| ScanLineHachure.PolygonHachureLines | src/fillers/ScanLineHachure.cpp:29-42 | `polygonHachureLines` rotates by round(hachureAngle + 90), fills and rotates back |
| ScanLineHachure.RotatedHachure | src/fillers/ScanLineHachure.cpp:31-41 | the rotate, fill, rotate-back sequence for a given angle |
| ScanLineHachure.UnrotatedHachure | src/fillers/ScanLineHachure.cpp:33-40 | an angle of 0 skips the rotation, giving horizontal scan lines |
| ScanLineHachure.RotatedHachureLines | src/fillers/ScanLineHachure.cpp:33-40 | the lines are the horizontal scan lines of the rotated polygon, each end rotated back by the opposite angle |
| HachureFiller.FarEnoughTest | src/fillers/HachureFiller.cpp:68-86 | the squared-distance test is the source's `d > max(5, len * 0.1)` test |
| HachureFiller.ShortTests | src/fillers/HachureFiller.cpp:47-52 | `lineLength < 3` and `> 3` are comparisons of the squared length with 9 |
| HachureFiller.Intersections | src/fillers/HachureFiller.cpp:70-86 | at most one intersection per edge, each on the connector's line, at its recorded squared distance from the start, and farther than max(5, a tenth of the connector's length) from each end (`d > max(5, lineLength * 0.1)`, compared on squares) |
| HachureFiller.InsertByDistance | src/fillers/HachureFiller.cpp:88-90 | insertion keeps the list sorted by distance and adds exactly the entry |
| HachureFiller.ConsByDistance | src/fillers/HachureFiller.cpp:88-90 | an entry no further away than the head extends a sorted list |
| HachureFiller.HeadBoundsDistance | src/fillers/HachureFiller.cpp:88-90 | inserting an entry further away keeps the head nearest |
| HachureFiller.SortByDistance | src/fillers/HachureFiller.cpp:88-90 | the sorted intersections are ordered by distance and a permutation of the input |
| HachureFiller.PointsOf | src/fillers/HachureFiller.cpp:92-97 | the points of the intersections, in order |
| HachureFiller.Trim | src/fillers/HachureFiller.cpp:92-97 | drops exactly the first and/or last point as asked and keeps the rest in order |
| HachureFiller.Pairs | src/fillers/HachureFiller.cpp:108-115 | the sub-segments 0-1, 2-3, ..., with an odd last point left over |
| HachureFiller.Inside | src/fillers/HachureFiller.cpp:108-115 | only lines whose midpoint is inside, never more than given |
| HachureFiller.SplitPiecesInside | src/fillers/HachureFiller.cpp:66-121 | every piece returned has its midpoint inside the polygon |
| HachureFiller.FewCutsKeepWhole | src/fillers/HachureFiller.cpp:98-104 | with at most one intersection, or at most one left after trimming, the connector is kept whole exactly when its midpoint is inside |
| HachureFiller.CutsTrimEnds | src/fillers/HachureFiller.cpp:92-97 | the cuts are the sorted points without the first when the connector starts outside, and without the last when it ends outside |
| HachureFiller.SortedAreKept | src/fillers/HachureFiller.cpp:88-90 | sorting keeps every intersection a kept one |
| HachureFiller.CutsOrderedAndTrimmed | src/fillers/HachureFiller.cpp:88-97 | the cuts are kept intersections taken in order from the distance-sorted list, with the ends trimmed as the containment tests say |
| HachureFiller.CutsByDistance | src/fillers/HachureFiller.cpp:88-97 | cuts come in non-decreasing distance from the connector's start |
| HachureFiller.PiecesArePairs | src/fillers/HachureFiller.cpp:105-115 | with two or more cuts, the pieces are the inside pairs of [start, cuts, end]: the first starts at the connector's start, and with an even count the last ends at its end |
| HachureFiller.PiecesBetweenPairs | src/fillers/HachureFiller.cpp:98-120 | the same for any cut list of two or more points |
| HachureFiller.PairsRunEndToEnd | src/fillers/HachureFiller.cpp:105-115 | the first pair starts at the first point; with an even count the last pair ends at the last point |
| HachureFiller.InsideIsFilter | src/fillers/HachureFiller.cpp:108-115 | a line is kept exactly when it is given and its midpoint is inside |
| HachureFiller.NoConnectorForFirstLine | src/fillers/HachureFiller.cpp:44-45 | the first line gets no connector |
| HachureFiller.FewLinesNoConnectors | src/fillers/HachureFiller.cpp:44 | fewer than two lines give no connectors |
| HachureFiller.ConnectorRule | src/fillers/HachureFiller.cpp:46-55 | after a previous line shorter than 3, or for a connector of length at most 3, nothing; otherwise the pieces of the connector from this line's start to the previous line's end |
| HachureFiller.ConnectorsStep | src/fillers/HachureFiller.cpp:45-56 | one more loop iteration appends that line's connector pieces |
| HachureFiller.ConnectorsInside | src/fillers/HachureFiller.cpp:41-59 | every connector piece has its midpoint inside the polygon |
| HachureFiller.HachureFiller.constructor | src/fillers/HachureFiller.cpp:20-23 | the filler draws through the given renderer |
| HachureFiller.HachureFiller.FillPolygon | src/fillers/HachureFiller.cpp:24-32 | the renderer's ops gain one fill double-line per hachure line, then one per connector when asked, and the rand() cursor moves on by their draws |
| HachureFiller.HachureFiller.HachureAndConnectors | src/fillers/HachureFiller.cpp:26-30 | the hachure lines followed, when asked, by their connectors |
| HachureFiller.HachureFiller.RenderLines | src/fillers/HachureFiller.cpp:34-39 | one `doubleLineFillOps` per line, in order, appended to the renderer's ops |
| HachureFiller.HachureFiller.RenderLine | src/fillers/HachureFiller.cpp:36-38 | one more fill line, drawn from its start to its end |
| HachureFiller.HachureFiller.ConnectingLines | src/fillers/HachureFiller.cpp:41-59 | `connectingLines` returns the connectors |
| HachureFiller.HachureFiller.ConnectorFor | src/fillers/HachureFiller.cpp:46-55 | one iteration appends that line's connector pieces |
| HachureFiller.HachureFiller.MidPointInPolygon | src/fillers/HachureFiller.cpp:61-64 | the midpoint test, false for polygons of fewer than three vertices |
| HachureFiller.HachureFiller.CollectIntersections | src/fillers/HachureFiller.cpp:70-86 | the edge loop collects the kept intersections in edge order |
| HachureFiller.HachureFiller.SplitOnIntersections | src/fillers/HachureFiller.cpp:66-121 | `splitOnIntersections` returns the connector's inside pieces |
| HachureFiller.HachureFiller.PairsInside | src/fillers/HachureFiller.cpp:108-115 | the pairing loop keeps the sub-segments whose midpoint is inside |
| HachureFiller.PatternFillPolygon | src/Renderer.cpp:182-187 | a hachure fill without connectors, drawn into the renderer |
| Renderer.RandomValue | src/Renderer.cpp:239-242 | `randomWithOptions` lies in [0, 0.9999] |
| Renderer.RandomValueIsTenThousandths | src/Renderer.cpp:239-242 | the value is `rand() % 10000` ten-thousandths |
| Renderer.OffsetValueBetween | src/Renderer.cpp:244-247 | `offset` lies between roughness x gain x min and roughness x gain x max |
| Renderer.OffsetOptBounded | src/Renderer.cpp:249-252 | `offsetOpt(x)` is at most roughness x gain x |x| in absolute value |
| Renderer.SymmetricOffset | src/Renderer.cpp:249-252 | `offset(-x, x)` is the symmetric jitter c x (2u - 1) |
| Renderer.ScaledByUnit | src/Renderer.cpp:249-252 | scaling by a factor in [-1, 1] never grows a value |
| Renderer.JitterPointNear | src/Renderer.cpp:319-320 | a point jittered by two `offsetOpt` draws stays within the jitter bound of the original |
| Renderer.RoughnessGain | src/Renderer.cpp:268-275 | the gain is 1 below length 200, 0.4 above 500, and in [0.3999, 1] |
| Renderer.GainFallsWithLength | src/Renderer.cpp:268-275 | the gain does not rise with the length between 200 and 500 |
| Renderer.JitterIsClamped | src/Renderer.cpp:277-282 | the jitter is at most a tenth of the length and at most the maximal offset, and it is the maximal offset when that is small enough |
| Renderer.LengthSq | src/Renderer.cpp:265 | the squared length is never negative and is zero exactly for equal end points |
| Renderer.PassStart | src/Renderer.cpp:289-295 | a pass starts with a move |
| Renderer.PassCurve | src/Renderer.cpp:297-313 | a pass draws a cubic Bezier |
| Renderer.PrivateLineDraw | src/Renderer.cpp:263-314 | a pass is an optional move and one cubic, using 11 or 9 rand() values |
| Renderer.PrivateLineStaysNear | src/Renderer.cpp:289-313 | the pass starts within the jitter bound of the line's start and ends within it of the line's end |
| Renderer.PrivateLineUnfolds | src/Renderer.cpp:263-314 | the pass's rand() draws in source order: diverge point, two bowing offsets, move, then curve |
| Renderer.Trunc | src/Renderer.h:59 | the conversion to `int` truncates toward zero: never larger in magnitude, within 1, sign kept |
| Renderer.TruncKeepsIntegers | src/Renderer.h:59 | integral values pass the conversion unchanged |
| Renderer.DoubleLineDraw | src/Renderer.cpp:254-261 | `doubleLine` is one pass (move and curve), and a second pass unless single-stroke; 11 or 22 rand() values |
| Renderer.DrawEachAppend | src/Renderer.cpp:26-28 | drawing the concatenation of two line lists is drawing the first, then the second from where the first left the cursor |
| Renderer.DrawEachSize | src/Renderer.cpp:26-28 | with a uniform drawer, the ops and rand() draws grow linearly in the number of lines |
| Renderer.DrawEachSplit | src/Renderer.cpp:26-28 | line i's ops sit at a fixed position in the whole drawing |
| Renderer.DrawEachSnoc | src/Renderer.cpp:26-28 | one more line appends its own drawing |
| Renderer.SnocDoubleLine | src/Renderer.cpp:26-28 | one more line appends its double line |
| Renderer.Chain | src/Renderer.cpp:26-28 | the consecutive vertex pairs, one line each |
| Renderer.PathLines | src/Renderer.cpp:22-35 | `linearPath` draws n - 1 lines, plus the closing one when asked, for more than two points; one line for two; none otherwise |
| Renderer.PathIsConnected | src/Renderer.cpp:22-35 | the lines form a connected path from the first point, ending at the first point when closed and at the last when open |
| Renderer.RectangleSides | src/Renderer.cpp:42-51 | the rectangle is its four sides, in order |
| Renderer.CatmullRom | src/Renderer.cpp:341-348 | one cubic per interior point |
| Renderer.CatmullRomIsSmooth | src/Renderer.cpp:341-348 | each cubic ends at the next point, and consecutive control points mirror through it: the curve is smooth, with tangent s(p[j+3] - p[j+1])/6 |
| Renderer.StepsMeet | src/Renderer.cpp:344-346 | two consecutive Catmull-Rom steps meet at a point with mirrored controls |
| Renderer.MirroredControls | src/Renderer.cpp:344-346 | the Catmull-Rom controls before and after a point mirror through it |
| Renderer.CurveDraw | src/Renderer.cpp:334-361 | four or more points: a move then one cubic each, plus a line to the close point; three points: one straight cubic; two points: a double line; fewer: nothing |
| Renderer.CurveDrawShape | src/Renderer.cpp:336-352 | the drawing is a move to the second point, the Catmull-Rom cubics, and the close point's line within the jitter bound of it |
| Renderer.InnerJitter | src/Renderer.cpp:323-330 | the interior polyline points, each jittered with its own two draws |
| Renderer.InnerJitterSnoc | src/Renderer.cpp:323-330 | the jitter loop's invariant steps by one point |
| Renderer.CurvePoints | src/Renderer.cpp:318-330 | the control polyline has two extra points, or two in all for one point |
| Renderer.CurvePointsNear | src/Renderer.cpp:318-330 | every control point is within the jitter bound of its input point |
| Renderer.CurveWithOffsetDraw | src/Renderer.cpp:316-332 | the number of rand() values drawn depends only on the number of points |
| Renderer.CurveFollowsPoints | src/Renderer.cpp:316-332 | the curve starts near the first point and has one cubic ending near each later point |
| Renderer.CurveThroughControls | src/Renderer.cpp:334-348 | a Catmull-Rom curve over the control polyline passes near every input point |
| Renderer.Strokes | src/Renderer.cpp:53-59 | one stroke when multi-stroke is disabled, otherwise both in order |
| Renderer.RoughCurveAfterStrokes | src/Renderer.cpp:53-59 | two strokes drawn in turn make the rough curve |
| Renderer.RoughCurveSingle | src/Renderer.cpp:53-59 | one stroke makes the rough curve when multi-stroke is disabled |
| Renderer.BezierPass | src/Renderer.cpp:414-426 | a pass is a move and a cubic, the first move at the current point exactly |
| Renderer.BezierPassNear | src/Renderer.cpp:414-426 | the second pass's move is near the current point; each pass ends near the target, with the larger bound for the second |
| Renderer.BezierPassesStep | src/Renderer.cpp:414-426 | the loop's invariant steps by one pass |
| Renderer.BezierToDraw | src/Renderer.cpp:409-427 | one pass, or two unless multi-stroke is disabled, starting at the current point |
| Renderer.BezierToEndsNear | src/Renderer.cpp:420-425 | the first cubic ends within the jitter bound of the target |
| Renderer.SvgFromStep | src/Renderer.cpp:130-157 | the segment loop's invariant steps by one segment |
| Renderer.SegmentMoveCall | src/Renderer.cpp:135-141 | M sets both pen points and emits one move near them |
| Renderer.SegmentLineCall | src/Renderer.cpp:142-145 | L draws one double line from the pen and moves it |
| Renderer.SegmentCurveCall | src/Renderer.cpp:146-151 | C draws `bezierTo` from the pen to the end point |
| Renderer.SegmentCloseCall | src/Renderer.cpp:152-155 | Z draws one double line back to the subpath start |
| Renderer.OneLineDrawn | src/Renderer.cpp:32-34 | drawing a list of one line is drawing that line |
| Renderer.VertexOp | src/Renderer.cpp:170-173 | vertex 0 is a move, the others are lines |
| Renderer.VertexOps | src/Renderer.cpp:170-173 | one op per vertex, in order |
| Renderer.SolidFillDraw | src/Renderer.cpp:164-177 | more than two points: a move then a line per vertex, two draws each; otherwise nothing |
| Renderer.SolidFillNear | src/Renderer.cpp:166-174 | every vertex op is within the jitter bound of its vertex |
| Renderer.Renderer.constructor | src/Renderer.h:30-33 | a renderer starts with no ops and no rand() draws |
| Renderer.Renderer.RandomWithOptions | src/Renderer.cpp:239-242 | one draw, a value in [0, 0.9999]; no ops |
| Renderer.Renderer.Offset | src/Renderer.cpp:244-247 | one draw, a value between the scaled bounds; no ops |
| Renderer.Renderer.OffsetOpt | src/Renderer.cpp:249-252 | one draw, the symmetric offset; no ops |
| Renderer.Renderer.Jittered | src/Renderer.cpp:319-320 | two draws, the jittered point; no ops |
| Renderer.Renderer.PrivateLine | src/Renderer.cpp:263-314 | appends exactly one pass and moves the cursor past its draws |
| Renderer.Renderer.PassOps | src/Renderer.cpp:289-313 | appends the optional move and the cubic |
| Renderer.Renderer.DoubleLine | src/Renderer.cpp:254-261 | appends the double line |
| Renderer.Renderer.DrawLine | src/Renderer.cpp:17-20 | `line` appends one non-filling double line |
| Renderer.Renderer.DoubleLineFillOps | src/Renderer.cpp:223-226 | appends one filling double line |
| Renderer.Renderer.LinearPath | src/Renderer.cpp:22-35 | appends one double line per path line |
| Renderer.Renderer.DoubleLineChain | src/Renderer.cpp:26-28 | the loop appends a double line per consecutive pair |
| Renderer.Renderer.DoubleLineStep | src/Renderer.cpp:26-28 | one loop iteration appends one more line |
| Renderer.Renderer.Polygon | src/Renderer.cpp:37-40 | `polygon` is the closed linear path |
| Renderer.Renderer.Rectangle | src/Renderer.cpp:42-51 | `rectangle` is the polygon of its four corners |
| Renderer.Renderer.CurveThrough | src/Renderer.cpp:334-361 | `curve(points, closePoint)` appends the curve drawing |
| Renderer.Renderer.CatmullRomSegments | src/Renderer.cpp:340-348 | the loop appends the move and the Catmull-Rom cubics, with no draws |
| Renderer.Renderer.CurveWithOffset | src/Renderer.cpp:316-332 | appends the curve through the jittered control polyline |
| Renderer.Renderer.CurveControls | src/Renderer.cpp:318-330 | builds the jittered control polyline; no ops |
| Renderer.Renderer.Curve | src/Renderer.cpp:53-59 | `curve(points, o)` appends one or two strokes |
| Renderer.Renderer.SecondCurve | src/Renderer.cpp:56-58 | the second stroke completes the rough curve |
| Renderer.Renderer.BezierTo | src/Renderer.cpp:409-427 | appends the passes of `bezierTo` |
| Renderer.Renderer.BezierLoopStep | src/Renderer.cpp:414-426 | one loop iteration appends one pass |
| Renderer.Renderer.BezierIteration | src/Renderer.cpp:415-425 | the loop body appends one pass |
| Renderer.Renderer.SvgPath | src/Renderer.cpp:127-158 | on a parse error nothing changes and the error is returned; otherwise the drawing of every segment is appended |
| Renderer.Renderer.SvgSegments | src/Renderer.cpp:130-157 | the segment loop from pen (0, 0) appends each segment's drawing |
| Renderer.Renderer.DrawSegment | src/Renderer.cpp:133-156 | one segment's switch case, updating the pen |
| Renderer.Renderer.SolidFillPolygon | src/Renderer.cpp:164-177 | appends the filled outline ops |
| Renderer.Renderer.PassScale | src/Renderer.cpp:265-282 | computes the gain and the clamped jitter without drawing |
| Renderer.Renderer.Bow | src/Renderer.cpp:283-287 | three draws: the diverge point and the two bowing offsets |
| Renderer.Renderer.MoveToPass | src/Renderer.cpp:289-295 | appends the pass's move using two draws |
| Renderer.Renderer.CurvePass | src/Renderer.cpp:297-313 | appends the pass's cubic using six draws |

## Left out

- `main.cpp` is not part of this model: it is a demo driver.
- `arcToCubicCurves`, `degToRad` and `rotate` (src/PathDataParser/Normalize.cpp) are trigonometry. The arc conversion is an injected function `ArcToCubics`; `normalize` is modelled around it.
- The trigonometric Renderer operations (`ellipse`, `generateEllipseParams`, `ellipseWithParams`, `computeEllipsePoints`, `arc`, `privateArc`, `patternFillArc`) are not modelled.
- `fillPath` (`pointsOnPath` with tolerance 1 and distance (1 + roughness)/2, then `patternFillPolygon` on all the sets joined into one vertex list) is not modelled as one member, though both of its parts are (`PointsOnPath.PointsOnPath`, `HachureFiller.PatternFillPolygon`). `cloneOptionsAlterSeed` returns a copy of its argument, and the model uses the same options.
- `rotatePoints` and `rotateLines` (src/Geometry.h) are trigonometry; the rotation is an injected `Rotate` function.
- The distribution of `rand()` is not modelled: value k of an injected stream stands for the k-th call.
- `sqrt` is an injected function that is used only where a length feeds into arithmetic (`privateLine`). Comparisons of lengths are made on squared lengths.
- Geometry.LineLengthSq: `lineLength` returns the length, and the model states its square, which shows where a length is zero and how lengths compare.
- IEEE floating point: all arithmetic is exact real arithmetic, so rounding, overflow and NaN are not modelled. The exact `== 0` tests of the source are idealised.
- The ray end of `isPointInPolygon` is `numeric_limits<double>::max()`; the model uses that value as the constant `FAR_X`.
- `std::ranges::sort` is not stable. The model sorts by insertion, which keeps equal keys in input order; any other order of ties is not captured.
- C++ does not specify the order in which a call's arguments are evaluated. Where one call makes several `rand()` draws, the model evaluates them left to right.
- Parser.CommandAsParamIsError: the source throws `invalid_argument` with the message `"Param not a number: " + std::get<char>(*it)`, which adds a `char` to a `const char*` and so points past the literal: the message is undefined behaviour. The model's `Err(ParamNotANumber)`, here and in `Parser.ReadParams` and `Parser.ReadSegmentNotANumber`, stands for "throws, message undefined". The "Bad segment: " + mode message has the same defect, but its branch cannot be reached: a read that passes the length check collects exactly the arity's numbers or throws first, so the model has no error for it.
- PointsOnCurve.GetPointsOnBezierCurveWithSplitting: requires a positive tolerance, because with tolerance 0 the recursion never stops.
- PointsOnCurve.SimplifyPoints: requires epsilon >= 0. With a negative epsilon the source recurses forever (`NegativeEpsilonRecursesForever`).
- PointsOnPath.PointsOnPath: requires distance >= 0. The source passes the distance on unchecked; its callers pass (1 + roughness)/2, so a roughness below -1 makes the source recurse forever in `simplifyPoints`.
- PointsOnCurve.PointsOnBezierCurves: requires at least one point, because `size() - 1` wraps around on an empty vector. A positive distance also needs one whole piece, since `simplifyPoints` then reads `points[0]`.
- ScanLineHachure.StraightHachureLines: requires a non-empty polygon, since `front()` of an empty vector is undefined. The same holds for `polygonHachureLines` and `fillPolygon`.
- ScanLineHachure.StraightHachureLines: closing the caller's vector in place is modelled on a local copy, as its only caller passes a copy.
- The `Graphics` sink is the sequence of `Op` values the renderer appends; how it renders them is not modelled.
- Renderer.Renderer.PrivateLine: the source's integer coordinates are modelled as unbounded `int` parameters, with the conversion from `double` as `Trunc`. The conversion is undefined behaviour for values outside the range of `int`, so the model assumes coordinates within that range.
- Renderer.Renderer.Curve: requires at least one point, and so do `Renderer.Renderer.CurveWithOffset`, `Renderer.Renderer.CurveControls` and the functions behind them, because `curveWithOffset` reads `points[0]` even when the vector is empty, which is undefined behaviour.
- Declarations with no body in the headers (`Renderer.h`, `Filler.h`, `PointsOnCurve.h`) are modelled only through the definitions above.

## Findings

| source | as written | input that shows it | evidently intended | confidence | as-written member | corrected member |
|---|---|---|---|---|---|---|
| src/PathDataParser/Parser.cpp:65-86 | after `Z`/`z`, whose arity is 0, a number token is neither taken as a command nor consumed as a parameter, so each iteration appends another empty `Z` and `it` never advances | `M0 0Z5` | report the stray number as an error | not executed | Parser.CloseThenNumberNeverAdvances | Parser.CloseThenNumberIsError |
| src/fillers/ScanLineHachure.cpp:87-90 | the edge comparator returns true when ymin, x and ymax are all equal, so it is not a strict weak ordering and `std::ranges::sort` has undefined behaviour | the triangle (0,0), (5,10), (-5,10): its two sloped edges have equal keys | a strict lexicographic comparison on (ymin, x, ymax) | not executed | ScanLineHachure.AsWrittenIsNotStrict | ScanLineHachure.EdgeLessIsStrict |
