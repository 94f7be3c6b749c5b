/** Path-data tokenizer and parser (src/PathDataParser/Parser.cpp, Parser.h).

    The tokenizer scans an SVG path-data string left to right with three
    anchored patterns (command letter, number, separator run) and gives up with
    an empty token list on the first character that none of them matches.  The
    parser walks the tokens with a current command `mode`, reading exactly
    `PARAMS_COUNT[mode]` numbers per segment. */
module Parser {
  import opened Core

  datatype Token = Command(c: char) | Number(v: real)

  /** A path command with its numeric parameters. */
  datatype Segment = Segment(key: char, data: seq<real>)

  datatype ParseError =
    | EndedShort          // "Path data ended short": fewer tokens left than the arity needs
    | ParamNotANumber     // "Param not a number": a command token where a number is expected
    | UnknownCommand      // `PARAMS_COUNT.at(mode)` throws for a key it does not know
    | StalledAfterClose   // Z/z followed by a number: the source loop never advances (see README)

  datatype Result<T> = Ok(value: T) | Err(error: ParseError)

  /** The fixed arity of every command letter. */
  const PARAMS_COUNT: map<char, nat> := map[
    'A' := 7, 'a' := 7, 'C' := 6, 'c' := 6, 'H' := 1, 'h' := 1,
    'L' := 2, 'l' := 2, 'M' := 2, 'm' := 2, 'Q' := 4, 'q' := 4,
    'S' := 4, 's' := 4, 'T' := 2, 't' := 2, 'V' := 1, 'v' := 1,
    'Z' := 0, 'z' := 0]

  predicate IsCommandChar(c: char) { c in {'a', 'A', 'c', 'C', 'h', 'H', 'l', 'L', 'm', 'M', 'q', 'Q', 's', 'S', 't', 'T', 'v', 'V', 'z', 'Z'} }
  predicate IsSeparator(c: char) { c in {'\t', '\n', '\r', ' ', ','} }
  predicate IsDigit(c: char) { '0' <= c <= '9' }
  predicate IsSign(c: char) { c == '+' || c == '-' }

  /** Characters that can be part of a numeral. */
  predicate IsNumeralChar(c: char) { IsDigit(c) || IsSign(c) || c == '.' || c == 'e' || c == 'E' }

  /** Characters that some token class can consume. */
  predicate InAlphabet(c: char) { IsCommandChar(c) || IsNumeralChar(c) || IsSeparator(c) }

  lemma CommandCharsInPathAlphabet()
    ensures forall c :: IsCommandChar(c) ==> c in PARAMS_COUNT
  {
  }

  // ---------------------------------------------------------------- lexical patterns

  /** Length of the run of decimal digits at the start of `s`. */
  function DigitRun(s: string): (n: nat)
    ensures n <= |s|
    ensures forall i :: 0 <= i < n ==> IsDigit(s[i])
    ensures n < |s| ==> !IsDigit(s[n])
  {
    if s != [] && IsDigit(s[0]) then 1 + DigitRun(s[1..]) else 0
  }

  /** Length of the match of `[-+]?[0-9]+(\.[0-9]*)?|[-+]?\.[0-9]+` at the start of
      `s` (0 when it does not match).  The alternation is ordered, as in ECMAScript
      regular expressions, and both quantifiers are greedy. */
  function MantissaLength(s: string): (n: nat)
    ensures n <= |s|
    ensures forall i :: 0 <= i < n ==> IsNumeralChar(s[i])
    ensures n > 0 ==> exists i :: 0 <= i < n && IsDigit(s[i])
  {
    var sg := if s != [] && IsSign(s[0]) then 1 else 0;
    var d := DigitRun(s[sg..]);
    if d > 0 then
      var k := sg + d;
      assert IsDigit(s[sg]);
      if k < |s| && s[k] == '.' then k + 1 + DigitRun(s[k + 1..]) else k
    else if sg < |s| && s[sg] == '.' && DigitRun(s[sg + 1..]) > 0 then
      assert IsDigit(s[sg + 1]);
      sg + 1 + DigitRun(s[sg + 1..])
    else 0
  }

  /** Length of the match of the optional exponent `[eE][-+]?[0-9]+` at the start of `s`. */
  function ExponentLength(s: string): (n: nat)
    ensures n <= |s|
    ensures forall i :: 0 <= i < n ==> IsNumeralChar(s[i])
  {
    if s != [] && (s[0] == 'e' || s[0] == 'E') then
      var sg := if 1 < |s| && IsSign(s[1]) then 1 else 0;
      var d := DigitRun(s[1 + sg..]);
      if d > 0 then 1 + sg + d else 0
    else 0
  }

  /** Length of the number pattern's match at the start of `s` (0: no match). */
  function NumberLength(s: string): (n: nat)
    ensures n <= |s|
    ensures forall i :: 0 <= i < n ==> IsNumeralChar(s[i])
    ensures n > 0 <==> MantissaLength(s) > 0
  {
    var m := MantissaLength(s);
    if m == 0 then 0 else m + ExponentLength(s[m..])
  }

  /** Length of the run of separators (tab, LF, CR, space, comma) at the start of `s`. */
  function SeparatorRun(s: string): (n: nat)
    ensures n <= |s|
    ensures forall i :: 0 <= i < n ==> IsSeparator(s[i])
    ensures n < |s| ==> !IsSeparator(s[n])
  {
    if s != [] && IsSeparator(s[0]) then 1 + SeparatorRun(s[1..]) else 0
  }

  // ---------------------------------------------------------------- numeral values (std::stod)

  function Pow10(n: nat): (r: real)
    ensures r >= 1.0
  {
    if n == 0 then 1.0 else 10.0 * Pow10(n - 1)
  }

  function DigitValue(c: char): nat
    requires IsDigit(c)
  {
    (c as int - '0' as int) as nat
  }

  /** The value of a string of decimal digits. */
  function DigitsValue(ds: string): nat
    requires forall i :: 0 <= i < |ds| ==> IsDigit(ds[i])
  {
    if ds == [] then 0 else 10 * DigitsValue(ds[..|ds| - 1]) + DigitValue(ds[|ds| - 1])
  }

  /** The value of a numeral matched by the number pattern: sign, integer digits,
      optional fraction, optional exponent. */
  function NumeralValue(t: string): real
  {
    var sg := if t != [] && IsSign(t[0]) then 1 else 0;
    var negative := sg == 1 && t[0] == '-';
    (if negative then -1.0 else 1.0) * UnsignedValue(t[sg..])
  }

  /** Integer digits, then the optional fraction and exponent. */
  function UnsignedValue(u: string): real
  {
    var ip := DigitRun(u);
    var r1 := u[ip..];
    WithExponent(DigitsValue(u[..ip]) as real + FractionValue(r1), AfterFraction(r1))
  }

  /** A mantissa scaled by the optional exponent at the start of `r2`. */
  function WithExponent(m: real, r2: string): real
  {
    m * ExponentScale(r2)
  }

  /** The value of an optional fraction `.digits` at the start of `r1`. */
  function FractionValue(r1: string): real
  {
    if r1 != [] && r1[0] == '.' then
      var fl := DigitRun(r1[1..]);
      DigitsValue(r1[1..1 + fl]) as real / Pow10(fl)
    else 0.0
  }

  /** What follows the optional fraction. */
  function AfterFraction(r1: string): string
  {
    if r1 != [] && r1[0] == '.' then r1[1 + DigitRun(r1[1..])..] else r1
  }

  /** The factor of an optional exponent `e`, `e+`, `e-` followed by digits;
      an exponent letter without digits counts as exponent 0. */
  function ExponentScale(r2: string): real
  {
    var esg := if 1 < |r2| && IsSign(r2[1]) then 1 else 0;
    var eneg := esg == 1 && r2[1] == '-';
    var el := if r2 != [] then DigitRun(r2[1 + esg..]) else 0;
    var e := if r2 != [] && el > 0 then DigitsValue(r2[1 + esg..1 + esg + el]) else 0;
    if eneg then 1.0 / Pow10(e) else Pow10(e)
  }

  // ---------------------------------------------------------------- tokenize

  function PrependTokens(t: seq<Token>, r: Option<seq<Token>>): Option<seq<Token>>
  {
    match r
    case None => None
    case Some(u) => Some(t + u)
  }

  /** The token scan: `Some(tokens)` when every character is consumed, `None` at the
      first character that matches no pattern. */
  function Lex(s: string): Option<seq<Token>>
    decreases |s|
  {
    if s == [] then Some([])
    else if IsCommandChar(s[0]) then PrependTokens([Command(s[0])], Lex(s[1..]))
    else if NumberLength(s) > 0 then
      PrependTokens([Number(NumeralValue(s[..NumberLength(s)]))], Lex(s[NumberLength(s)..]))
    else if SeparatorRun(s) > 0 then Lex(s[SeparatorRun(s)..])
    else None
  }

  /** What `tokenize` returns: the scan's tokens, or the empty list on failure. */
  function Tokens(s: string): seq<Token>
  {
    match Lex(s)
    case None => []
    case Some(t) => t
  }

  lemma PrependAssoc(t: seq<Token>, u: seq<Token>, r: Option<seq<Token>>)
    ensures PrependTokens(t, PrependTokens(u, r)) == PrependTokens(t + u, r)
  {
    match r
    case None =>
    case Some(v) => ConcatAssoc(t, u, v);
  }

  lemma PrependEmpty(r: Option<seq<Token>>)
    ensures PrependTokens([], r) == r
  {
    match r
    case None =>
    case Some(v) => assert [] + v == v;
  }

  /** The scan at position `i` emits `emitted` and resumes at `i + n`. */
  lemma LexStepAt(d: string, i: nat, n: nat, emitted: seq<Token>)
    requires i < |d| && 0 < n <= |d| - i
    requires (IsCommandChar(d[i]) && n == 1 && emitted == [Command(d[i])]) ||
      (!IsCommandChar(d[i]) && n == NumberLength(d[i..]) && emitted == [Number(NumeralValue(d[i..][..n]))]) ||
      (!IsCommandChar(d[i]) && NumberLength(d[i..]) == 0 && n == SeparatorRun(d[i..]) && emitted == [])
    ensures Lex(d[i..]) == PrependTokens(emitted, Lex(d[i + n..]))
  {
    var rest := d[i..];
    assert rest[n..] == d[i + n..];
    if emitted == [] {
      PrependEmpty(Lex(rest[n..]));
    }
  }

  /** `tokenize`: the while loop over the iterator `it`, pushing into `tokens`. */
  method Tokenize(d: string) returns (tokens: seq<Token>)
    ensures tokens == Tokens(d)
  {
    tokens := [];
    var i := 0;
    assert d[0..] == d;
    ghost var all := Lex(d);
    PrependEmpty(all);
    while i < |d|
      invariant 0 <= i <= |d|
      invariant all == PrependTokens(tokens, Lex(d[i..]))
    {
      var rest := d[i..];
      var n: nat;
      var emitted: seq<Token>;
      if IsCommandChar(rest[0]) {
        n := 1;
        emitted := [Command(rest[0])];
      } else if NumberLength(rest) > 0 {
        n := NumberLength(rest);
        emitted := [Number(NumeralValue(rest[..n]))];
      } else if SeparatorRun(rest) > 0 {
        n := SeparatorRun(rest);
        emitted := [];
      } else {
        assert Lex(rest) == None;
        return [];
      }
      LexStepAt(d, i, n, emitted);
      ghost var next := Lex(d[i + n..]);
      PrependAssoc(tokens, emitted, next);
      tokens := tokens + emitted;
      ghost var i0 := i;
      i := i + n;
      assert d[i..] == d[i0 + n..];
      assert Lex(d[i..]) == next;
    }
    assert d[i..] == [];
    assert tokens + [] == tokens;
  }

  /** A string that starts with a separator is scanned by skipping the whole run. */
  lemma SeparatorCase(s: string)
    requires s != [] && IsSeparator(s[0])
    ensures Lex(s) == Lex(s[SeparatorRun(s)..])
  {
    assert !IsCommandChar(s[0]) && !IsNumeralChar(s[0]);
    assert NumberLength(s) == 0;
  }

  /** A separator at the front of the input never changes the scan. */
  lemma SeparatorIgnored(c: char, s: string)
    requires IsSeparator(c)
    ensures Lex([c] + s) == Lex(s)
  {
    var cs := [c] + s;
    assert cs[1..] == s;
    assert SeparatorRun(cs) == 1 + SeparatorRun(s);
    assert cs[SeparatorRun(cs)..] == s[SeparatorRun(s)..];
    SeparatorCase(cs);
    if SeparatorRun(s) > 0 {
      SeparatorCase(s);
    } else {
      assert s[SeparatorRun(s)..] == s;
    }
  }

  /** Separators (space, tab, CR, LF, comma) never produce tokens: a prefix made only
      of separators leaves the token list unchanged. */
  lemma {:induction false} SeparatorsProduceNoTokens(w: string, s: string)
    requires forall i :: 0 <= i < |w| ==> IsSeparator(w[i])
    ensures Lex(w + s) == Lex(s)
    ensures Tokens(w + s) == Tokens(s)
    decreases |w|
  {
    if w == [] {
      assert w + s == s;
    } else {
      var t := w[1..] + s;
      assert w + s == [w[0]] + t;
      SeparatorIgnored(w[0], t);
      SeparatorsProduceNoTokens(w[1..], s);
      assert Lex(w + s) == Lex(t);
    }
  }

  /** A character that no pattern can consume anywhere in the input makes `tokenize`
      return the empty list, with no partial tokens. */
  lemma {:induction false} UnknownCharacterGivesNoTokens(s: string, j: nat)
    requires j < |s| && !InAlphabet(s[j])
    ensures Lex(s) == None
    ensures Tokens(s) == []
    decreases |s|
  {
    if IsCommandChar(s[0]) {
      assert j != 0;
      UnknownCharacterGivesNoTokens(s[1..], j - 1);
    } else if NumberLength(s) > 0 {
      var n := NumberLength(s);
      assert j >= n;
      UnknownCharacterGivesNoTokens(s[n..], j - n);
    } else if SeparatorRun(s) > 0 {
      var n := SeparatorRun(s);
      assert j >= n;
      UnknownCharacterGivesNoTokens(s[n..], j - n);
    }
  }

  /** A command letter is scanned as one command token. */
  lemma LexCommandThen(c: char, s: string, ts: seq<Token>)
    requires IsCommandChar(c) && Lex(s) == Some(ts)
    ensures Lex([c] + s) == Some([Command(c)] + ts)
  {
    assert ([c] + s)[1..] == s;
  }

  /** A separator is skipped. */
  lemma LexSeparatorThen(c: char, s: string, ts: seq<Token>)
    requires IsSeparator(c) && Lex(s) == Some(ts)
    ensures Lex([c] + s) == Some(ts)
  {
    SeparatorIgnored(c, s);
  }

  lemma {:induction false} DigitRunOfDigits(ds: string, s: string)
    requires forall i :: 0 <= i < |ds| ==> IsDigit(ds[i])
    requires s == [] || !IsDigit(s[0])
    ensures DigitRun(ds + s) == |ds|
    decreases |ds|
  {
    if ds == [] {
      assert ds + s == s;
    } else {
      assert (ds + s)[1..] == ds[1..] + s;
      DigitRunOfDigits(ds[1..], s);
    }
  }

  lemma NumberLengthOfDigits(ds: string, s: string)
    requires ds != [] && forall i :: 0 <= i < |ds| ==> IsDigit(ds[i])
    requires s == [] || !(IsDigit(s[0]) || s[0] == '.' || s[0] == 'e' || s[0] == 'E')
    ensures NumberLength(ds + s) == |ds|
  {
    var x := ds + s;
    assert x[0] == ds[0] && !IsSign(x[0]);
    DigitRunOfDigits(ds, s);
    assert x[0..] == x;
    assert MantissaLength(x) == |ds|;
    assert x[|ds|..] == s;
  }

  lemma NumeralOfDigits(ds: string)
    requires ds != [] && forall i :: 0 <= i < |ds| ==> IsDigit(ds[i])
    ensures NumeralValue(ds) == DigitsValue(ds) as real
  {
    assert !IsSign(ds[0]);
    assert ds[0..] == ds;
    assert DigitRun(ds) == |ds| by {
      DigitRunOfDigits(ds, []);
      assert ds + [] == ds;
    }
    UnsignedOfDigits(ds);
  }

  lemma UnsignedOfDigits(ds: string)
    requires DigitRun(ds) == |ds|
    ensures UnsignedValue(ds) == DigitsValue(ds) as real
  {
    var r1 := ds[|ds|..];
    assert ds[..|ds|] == ds && r1 == [];
    assert FractionValue(r1) == 0.0 && AfterFraction(r1) == [];
    NoExponent(DigitsValue(ds) as real);
  }

  lemma NoExponent(m: real)
    ensures WithExponent(m, []) == m
  {
    assert ExponentScale([]) == 1.0;
  }

  /** A run of digits not followed by a digit, a point or an exponent letter is scanned
      as one number token whose value is the run's decimal value. */
  lemma LexDigitsThen(ds: string, s: string, ts: seq<Token>)
    requires ds != [] && forall i :: 0 <= i < |ds| ==> IsDigit(ds[i])
    requires s == [] || !(IsDigit(s[0]) || s[0] == '.' || s[0] == 'e' || s[0] == 'E')
    requires Lex(s) == Some(ts)
    ensures Lex(ds + s) == Some([Number(DigitsValue(ds) as real)] + ts)
  {
    var x := ds + s;
    assert x[0] == ds[0] && !IsCommandChar(x[0]);
    NumberLengthOfDigits(ds, s);
    assert x[..|ds|] == ds && x[|ds|..] == s;
    NumeralOfDigits(ds);
  }

  /** A command letter and two digit runs split by a space (`L10 0`) scan as a command
      and its two number tokens when another command follows. */
  lemma LexCommandPairThen(c: char, x: string, y: string, s: string, ts: seq<Token>)
    requires IsCommandChar(c)
    requires x != [] && forall i :: 0 <= i < |x| ==> IsDigit(x[i])
    requires y != [] && forall i :: 0 <= i < |y| ==> IsDigit(y[i])
    requires s != [] && IsCommandChar(s[0]) && Lex(s) == Some(ts)
    ensures Lex([c] + x + [' '] + y + s) ==
      Some([Command(c), Number(DigitsValue(x) as real), Number(DigitsValue(y) as real)] + ts)
  {
    var vx := Number(DigitsValue(x) as real);
    var vy := Number(DigitsValue(y) as real);
    LexDigitsThen(y, s, ts);
    LexSeparatorThen(' ', y + s, [vy] + ts);
    LexDigitsThen(x, [' '] + (y + s), [vy] + ts);
    LexCommandThen(c, x + ([' '] + (y + s)), [vx] + ([vy] + ts));
    PairText(c, x, y, s);
    ConsThree(Command(c), vx, vy, ts);
  }

  lemma PairText(c: char, x: string, y: string, s: string)
    ensures [c] + (x + ([' '] + (y + s))) == [c] + x + [' '] + y + s
  {
  }

  lemma ConsThree<T>(a: T, b: T, c: T, ts: seq<T>)
    ensures [a] + ([b] + ([c] + ts)) == [a, b, c] + ts
  {
  }

  // ---------------------------------------------------------------- parsePath

  /** The state the source loop carries: the iterator position, `mode`, `segments`. */
  datatype ParseState = ParseState(idx: nat, mode: char, segments: seq<Segment>)

  /** After an M (m) segment the mode becomes L (l): an implicit line-to. */
  function NextMode(mode: char): char
  {
    if mode == 'M' then 'L' else if mode == 'm' then 'l' else mode
  }

  /** All values of `ts` if every one of them is a number. */
  function Params(ts: seq<Token>): (r: Option<seq<real>>)
    ensures r.Some? <==> forall j | 0 <= j < |ts| :: ts[j].Number?
    ensures r.Some? ==> |r.value| == |ts| && forall j | 0 <= j < |ts| :: r.value[j] == ts[j].v
  {
    if ts == [] then Some([])
    else if ts[0].Command? then None
    else
      match Params(ts[1..])
      case None => None
      case Some(vs) => Some([ts[0].v] + vs)
  }

  /** The first half of an iteration: a command token becomes the mode and is consumed. */
  function AfterCommand(tokens: seq<Token>, st: ParseState): (r: ParseState)
    requires st.idx < |tokens|
    ensures r.idx <= |tokens| && r.segments == st.segments
  {
    if tokens[st.idx].Command? then ParseState(st.idx + 1, tokens[st.idx].c, st.segments) else st
  }

  /** The second half: read `PARAMS_COUNT[mode]` numbers and append one segment. */
  function ReadSegment(tokens: seq<Token>, st: ParseState): (r: Result<ParseState>)
    requires st.idx <= |tokens|
    ensures r.Ok? ==> r.value.idx <= |tokens| && |r.value.segments| == |st.segments| + 1
    ensures r.Ok? ==> r.value.segments[..|st.segments|] == st.segments
  {
    if st.mode !in PARAMS_COUNT then Err(UnknownCommand)
    else
      var n := PARAMS_COUNT[st.mode];
      if n <= |tokens| - st.idx then
        match Params(tokens[st.idx..st.idx + n])
        case None => Err(ParamNotANumber)
        case Some(ps) => Ok(ParseState(st.idx + n, NextMode(st.mode), st.segments + [Segment(st.mode, ps)]))
      else Err(EndedShort)
  }

  lemma ReadSegmentOk(tokens: seq<Token>, st: ParseState, ps: seq<real>)
    requires st.mode in PARAMS_COUNT && st.idx + PARAMS_COUNT[st.mode] <= |tokens|
    requires Params(tokens[st.idx..st.idx + PARAMS_COUNT[st.mode]]) == Some(ps)
    ensures ReadSegment(tokens, st) ==
      Ok(ParseState(st.idx + PARAMS_COUNT[st.mode], NextMode(st.mode), st.segments + [Segment(st.mode, ps)]))
  {
  }

  /** One iteration of the source's `for` loop, exactly as written (no stall check). */
  function LoopBody(tokens: seq<Token>, st: ParseState): (r: Result<ParseState>)
    requires st.idx < |tokens|
    ensures r.Ok? ==> r.value.idx <= |tokens| && |r.value.segments| == |st.segments| + 1
    ensures r.Ok? ==> r.value.segments[..|st.segments|] == st.segments
  {
    ReadSegment(tokens, AfterCommand(tokens, st))
  }

  /** The iteration that makes no progress: a number token while the mode has arity 0. */
  predicate Stalls(tokens: seq<Token>, st: ParseState)
    requires st.idx < |tokens|
  {
    tokens[st.idx].Number? && st.mode in PARAMS_COUNT && PARAMS_COUNT[st.mode] == 0
  }

  lemma LoopBodyProgress(tokens: seq<Token>, st: ParseState)
    requires st.idx < |tokens| && !Stalls(tokens, st) && LoopBody(tokens, st).Ok?
    ensures LoopBody(tokens, st).value.idx > st.idx
  {
  }

  /** The rest of the parse from state `st`; the stalling iteration is reported as an error. */
  function ParseFrom(tokens: seq<Token>, st: ParseState): Result<seq<Segment>>
    requires st.idx <= |tokens|
    decreases |tokens| - st.idx
  {
    if st.idx == |tokens| then Ok(st.segments)
    else if Stalls(tokens, st) then Err(StalledAfterClose)
    else
      match LoopBody(tokens, st)
      case Err(e) => Err(e)
      case Ok(st') =>
        LoopBodyProgress(tokens, st);
        ParseFrom(tokens, st')
  }

  /** The state before the loop: a synthetic `M 0 0` unless the path starts with M or m.
      When it does, `mode` is uninitialised in the source and is overwritten by the
      first token; 'M' stands in for it. */
  function InitialState(tokens: seq<Token>): ParseState
    requires tokens != []
  {
    if tokens[0].Number? || (tokens[0].c != 'M' && tokens[0].c != 'm') then
      ParseState(0, 'M', [Segment('M', [0.0, 0.0])])
    else ParseState(0, 'M', [])
  }

  function ParseTokens(tokens: seq<Token>): Result<seq<Segment>>
  {
    if tokens == [] then Ok([]) else ParseFrom(tokens, InitialState(tokens))
  }

  /** What `parsePath` computes. */
  function ParsePathSpec(d: string): Result<seq<Segment>>
  {
    ParseTokens(Tokens(d))
  }

  /** The inner loop of `parsePath`: read `count` numbers starting at `from`,
      failing on the first command token. */
  method ReadParams(tokens: seq<Token>, from: nat, count: nat) returns (r: Option<seq<real>>)
    requires from + count <= |tokens|
    ensures r == Params(tokens[from..from + count])
  {
    ghost var window := tokens[from..from + count];
    assert forall j | 0 <= j < count :: window[j] == tokens[from + j];
    var params: seq<real> := [];
    var i := 0;
    while i < count
      invariant 0 <= i <= count && |params| == i
      invariant forall j | 0 <= j < i :: window[j].Number? && params[j] == window[j].v
    {
      if tokens[from + i].Command? {
        assert window[i].Command?;
        return None;
      }
      params := params + [tokens[from + i].v];
      i := i + 1;
    }
    assert Params(window).value == params;
    return Some(params);
  }

  /** `parsePath`: tokenize, then the loop over the tokens mutating `mode`, `params`
      and `segments`. */
  method ParsePath(d: string) returns (r: Result<seq<Segment>>)
    ensures r == ParsePathSpec(d)
  {
    var tokens := Tokenize(d);
    r := ParseTokenList(tokens);
  }

  /** The loop of `parsePath` over the token list. */
  method ParseTokenList(tokens: seq<Token>) returns (r: Result<seq<Segment>>)
    ensures r == ParseTokens(tokens)
  {
    if |tokens| == 0 {
      return Ok([]);
    }
    var segments: seq<Segment> := [];
    var mode: char := 'M';
    if tokens[0].Number? || (tokens[0].c != 'M' && tokens[0].c != 'm') {
      segments := [Segment('M', [0.0, 0.0])];
      mode := 'M';
    }
    var it: nat := 0;
    ghost var goal := ParseTokens(tokens);
    while it < |tokens|
      invariant it <= |tokens|
      invariant goal == ParseFrom(tokens, ParseState(it, mode, segments))
      decreases |tokens| - it
    {
      var step := ParseIteration(tokens, it, mode, segments);
      if step.Err? {
        return Err(step.error);
      }
      it, mode, segments := step.value.idx, step.value.mode, step.value.segments;
    }
    return Ok(segments);
  }

  /** One iteration of the loop of `parsePath`: take a command token as the
      new mode, then read the mode's parameters and append one segment. */
  method ParseIteration(tokens: seq<Token>, it0: nat, mode0: char, segments: seq<Segment>) returns (r: Result<ParseState>)
    requires it0 < |tokens|
    ensures var st := ParseState(it0, mode0, segments);
      r == if Stalls(tokens, st) then Err(StalledAfterClose) else LoopBody(tokens, st)
    ensures r.Ok? ==> it0 < r.value.idx <= |tokens|
  {
    ghost var st := ParseState(it0, mode0, segments);
    var it, mode := it0, mode0;
    var consumed := false;
    if tokens[it].Command? {
      mode := tokens[it].c;
      it := it + 1;
      consumed := true;
    }
    ghost var next := ParseState(it, mode, segments);
    assert AfterCommand(tokens, st) == next;
    if mode !in PARAMS_COUNT {
      return Err(UnknownCommand);
    }
    var paramsCount := PARAMS_COUNT[mode];
    if !consumed && paramsCount == 0 {
      return Err(StalledAfterClose);
    }
    if paramsCount > |tokens| - it {
      return Err(EndedShort);
    }
    var params := ReadParams(tokens, it, paramsCount);
    if params.None? {
      return Err(ParamNotANumber);
    }
    // the source's `params.size() == PARAMS_COUNT.at(mode)` check always holds here
    ReadSegmentOk(tokens, next, params.value);
    r := Ok(ParseState(it + paramsCount, NextMode(mode), segments + [Segment(mode, params.value)]));
  }

  // ---------------------------------------------------------------- parser properties

  predicate HasArity(seg: Segment)
  {
    seg.key in PARAMS_COUNT && |seg.data| == PARAMS_COUNT[seg.key]
  }

  lemma {:induction false} ParseFromKeepsArity(tokens: seq<Token>, st: ParseState)
    requires st.idx <= |tokens|
    requires forall i :: 0 <= i < |st.segments| ==> HasArity(st.segments[i])
    ensures ParseFrom(tokens, st).Ok? ==>
      forall i :: 0 <= i < |ParseFrom(tokens, st).value| ==> HasArity(ParseFrom(tokens, st).value[i])
    decreases |tokens| - st.idx
  {
    if st.idx < |tokens| && !Stalls(tokens, st) && LoopBody(tokens, st).Ok? {
      var st' := LoopBody(tokens, st).value;
      LoopBodyProgress(tokens, st);
      assert forall i :: 0 <= i < |st'.segments| ==> HasArity(st'.segments[i]) by {
        forall i | 0 <= i < |st'.segments|
          ensures HasArity(st'.segments[i])
        {
          if i < |st.segments| {
            assert st'.segments[i] == st'.segments[..|st.segments|][i];
          }
        }
      }
      ParseFromKeepsArity(tokens, st');
    }
  }

  /** Every emitted segment's data length equals `PARAMS_COUNT[key]`. */
  lemma ParsedSegmentsHaveArity(d: string)
    requires ParsePathSpec(d).Ok?
    ensures forall i :: 0 <= i < |ParsePathSpec(d).value| ==> HasArity(ParsePathSpec(d).value[i])
  {
    var tokens := Tokens(d);
    if tokens != [] {
      ParseFromKeepsArity(tokens, InitialState(tokens));
    }
  }

  lemma {:induction false} ParseFromExtends(tokens: seq<Token>, st: ParseState)
    requires st.idx <= |tokens|
    requires ParseFrom(tokens, st).Ok?
    ensures |st.segments| <= |ParseFrom(tokens, st).value|
    ensures ParseFrom(tokens, st).value[..|st.segments|] == st.segments
    decreases |tokens| - st.idx
  {
    if st.idx < |tokens| {
      var st' := LoopBody(tokens, st).value;
      LoopBodyProgress(tokens, st);
      ParseFromExtends(tokens, st');
      var out := ParseFrom(tokens, st').value;
      assert out[..|st.segments|] == out[..|st'.segments|][..|st.segments|];
    }
  }

  /** A path that parses always starts with a move: the synthetic `M 0 0` when its
      first token is a number or a command other than M/m, and otherwise the M or m
      the path begins with. */
  lemma FirstSegmentIsMove(tokens: seq<Token>)
    requires tokens != [] && ParseTokens(tokens).Ok?
    ensures var segs := ParseTokens(tokens).value;
      |segs| >= 1 &&
      (if tokens[0] == Command('M') || tokens[0] == Command('m')
       then segs[0].key == tokens[0].c
       else segs[0] == Segment('M', [0.0, 0.0]))
  {
    var st := InitialState(tokens);
    if tokens[0] == Command('M') || tokens[0] == Command('m') {
      assert st.segments == [];
      assert !Stalls(tokens, st);
      var r := LoopBody(tokens, st);
      assert r.Ok?;
      assert r.value.segments[0].key == tokens[0].c;
      assert ParseFrom(tokens, st) == ParseFrom(tokens, r.value);
      ParseFromExtends(tokens, r.value);
      assert ParseTokens(tokens).value[..1] == r.value.segments;
    } else {
      ParseFromExtends(tokens, st);
      assert ParseTokens(tokens).value[..1] == st.segments;
    }
  }

  /** An empty token stream (an empty or all-separator string, or a string the
      tokenizer rejects) gives an empty segment list, not an error. */
  lemma EmptyTokensGiveNoSegments(d: string)
    requires Tokens(d) == []
    ensures ParsePathSpec(d) == Ok([])
  {
  }

  lemma ParamsOfPair(ts: seq<Token>)
    requires |ts| == 2 && ts[0].Number? && ts[1].Number?
    ensures Params(ts) == Some([ts[0].v, ts[1].v])
  {
    assert forall j | 0 <= j < |ts| :: ts[j].Number?;
    var vs := Params(ts).value;
    assert vs == [ts[0].v, ts[1].v];
  }

  /** After an M (m) segment, a further coordinate pair without a letter parses as L (l). */
  lemma ImplicitLineAfterMove(tokens: seq<Token>, st: ParseState)
    requires st.idx + 5 <= |tokens|
    requires tokens[st.idx] == Command('M') || tokens[st.idx] == Command('m')
    requires forall j | st.idx < j <= st.idx + 4 :: tokens[j].Number?
    ensures var c := tokens[st.idx].c;
      var l := if c == 'M' then 'L' else 'l';
      var i := st.idx;
      ParseFrom(tokens, st) ==
        ParseFrom(tokens, ParseState(i + 5, l, st.segments +
          [Segment(c, [tokens[i + 1].v, tokens[i + 2].v]), Segment(l, [tokens[i + 3].v, tokens[i + 4].v])]))
  {
    var i := st.idx;
    var c := tokens[i].c;
    var l := if c == 'M' then 'L' else 'l';
    ParamsOfPair(tokens[i + 1..i + 3]);
    var st1 := ParseState(i + 3, l, st.segments + [Segment(c, [tokens[i + 1].v, tokens[i + 2].v])]);
    assert AfterCommand(tokens, st) == ParseState(i + 1, c, st.segments);
    ReadSegmentOk(tokens, ParseState(i + 1, c, st.segments), [tokens[i + 1].v, tokens[i + 2].v]);
    assert LoopBody(tokens, st) == Ok(st1);
    ParamsOfPair(tokens[i + 3..i + 5]);
    assert !Stalls(tokens, st1);
    assert AfterCommand(tokens, st1) == st1;
    ReadSegmentOk(tokens, st1, [tokens[i + 3].v, tokens[i + 4].v]);
    assert st1.segments + [Segment(l, [tokens[i + 3].v, tokens[i + 4].v])] ==
      st.segments + [Segment(c, [tokens[i + 1].v, tokens[i + 2].v]), Segment(l, [tokens[i + 3].v, tokens[i + 4].v])];
  }

  /** Parsing fails when fewer tokens remain after a command than its arity needs. */
  lemma EndsShortIsError(tokens: seq<Token>, st: ParseState)
    requires st.idx < |tokens| && tokens[st.idx].Command? && tokens[st.idx].c in PARAMS_COUNT
    requires |tokens| - (st.idx + 1) < PARAMS_COUNT[tokens[st.idx].c]
    ensures ParseFrom(tokens, st) == Err(EndedShort)
  {
  }

  /** The same error for an implicit repeat: a number where the current mode still needs
      more numbers than remain, as in `M0 0 1`. */
  lemma EndsShortInImplicitRepeat(tokens: seq<Token>, st: ParseState)
    requires st.idx < |tokens| && tokens[st.idx].Number? && st.mode in PARAMS_COUNT
    requires |tokens| - st.idx < PARAMS_COUNT[st.mode]
    ensures ParseFrom(tokens, st) == Err(EndedShort)
  {
  }

  /** `M0 0 1`: after the move the mode is L, one number is left and two are needed. */
  lemma MoveThenLoneNumberEndsShort()
    ensures ParseTokens([Command('M'), Number(0.0), Number(0.0), Number(1.0)]) == Err(EndedShort)
  {
    var t := [Command('M'), Number(0.0), Number(0.0), Number(1.0)];
    var st := InitialState(t);
    assert st == ParseState(0, 'M', []);
    assert t[1..3] == [Number(0.0), Number(0.0)];
    ParamsOfPair(t[1..3]);
    ReadSegmentOk(t, ParseState(1, 'M', []), [0.0, 0.0]);
    var st1 := ParseState(3, 'L', [Segment('M', [0.0, 0.0])]);
    assert LoopBody(t, st) == Ok(st1);
    EndsShortInImplicitRepeat(t, st1);
  }

  /** Parsing fails when a command token sits where one of the numbers is expected. */
  lemma CommandAsParamIsError(tokens: seq<Token>, st: ParseState, j: nat)
    requires st.idx < |tokens| && tokens[st.idx].Command? && tokens[st.idx].c in PARAMS_COUNT
    requires st.idx + 1 + PARAMS_COUNT[tokens[st.idx].c] <= |tokens|
    requires st.idx < j <= st.idx + PARAMS_COUNT[tokens[st.idx].c] && tokens[j].Command?
    ensures ParseFrom(tokens, st) == Err(ParamNotANumber)
  {
    var i, c := st.idx, tokens[st.idx].c;
    var n := PARAMS_COUNT[c];
    var after := ParseState(i + 1, c, st.segments);
    assert AfterCommand(tokens, st) == after;
    assert tokens[i + 1..i + 1 + n][j - i - 1] == tokens[j];
    ReadSegmentNotANumber(tokens, after);
    assert LoopBody(tokens, st) == Err(ParamNotANumber);
  }

  /** Reading a segment fails when one of the tokens it needs is not a number. */
  lemma ReadSegmentNotANumber(tokens: seq<Token>, st: ParseState)
    requires st.mode in PARAMS_COUNT && st.idx + PARAMS_COUNT[st.mode] <= |tokens|
    requires Params(tokens[st.idx..st.idx + PARAMS_COUNT[st.mode]]).None?
    ensures ReadSegment(tokens, st) == Err(ParamNotANumber)
  {
  }

  // ---------------------------------------------------------------- the stall, as written

  /** `k` iterations of the source loop body, as written. */
  function Iterate(tokens: seq<Token>, st: ParseState, k: nat): Result<ParseState>
    decreases k
  {
    if k == 0 || st.idx >= |tokens| then Ok(st)
    else
      match LoopBody(tokens, st)
      case Err(e) => Err(e)
      case Ok(st') => Iterate(tokens, st', k - 1)
  }

  /** As written, a number after Z/z is never consumed: every iteration appends another
      empty Z segment and leaves the iterator and the mode where they were, so the loop
      condition `it != tokens.end()` stays true for ever. */
  lemma {:induction false} CloseThenNumberNeverAdvances(tokens: seq<Token>, st: ParseState, k: nat)
    requires st.idx < |tokens| && Stalls(tokens, st)
    ensures Iterate(tokens, st, k).Ok?
    ensures Iterate(tokens, st, k).value.idx == st.idx && Iterate(tokens, st, k).value.mode == st.mode
    ensures |Iterate(tokens, st, k).value.segments| == |st.segments| + k
    decreases k
  {
    if k > 0 {
      assert AfterCommand(tokens, st) == st;
      assert Params(tokens[st.idx..st.idx]) == Some([]);
      var st' := LoopBody(tokens, st).value;
      assert st' == ParseState(st.idx, st.mode, st.segments + [Segment(st.mode, [])]);
      CloseThenNumberNeverAdvances(tokens, st', k - 1);
    }
  }

  /** The corrected parser reports that input as an error instead. */
  lemma CloseThenNumberIsError(tokens: seq<Token>, st: ParseState)
    requires st.idx < |tokens| && tokens[st.idx].Number? && st.mode in {'Z', 'z'}
    ensures ParseFrom(tokens, st) == Err(StalledAfterClose)
  {
  }
}
