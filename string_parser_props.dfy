/** Properties of the string parser specification: the loop and the one-unit
    transition agree, input may be split anywhere, every text survives quoting and
    parsing back (section 7 of RFC 8259), `\uXXXX` yields exactly the unit it
    spells, and a balanced parenthesised string is read back verbatim. */
module StringParserProps {
  import opened Chars
  import opened Wrappers
  import opened ParserUtils
  import opened StringParsing

  // ---------------------------------------------------------------------------
  // Structure of the machine

  /** A parser that has seen its closing delimiter ignores further units. */
  lemma {:induction false} RunAtSeven(o: ParserOptions, s: SState, t: Text)
    requires Inv(s) && s.state == 7
    ensures Run(o, s, t) == Ok(s)
    decreases |t|
  {
    if t != [] {
      RunAtSeven(o, s, t[1..]);
    }
  }

  /** Feeding a + b is feeding a, then b. */
  lemma {:induction false} RunAppend(o: ParserOptions, s: SState, a: Text, b: Text)
    requires Inv(s)
    ensures Run(o, s, a + b) == (match Run(o, s, a)
                                 case Err(m) => Err(m)
                                 case Ok(s') => Run(o, s', b))
    decreases |a|
  {
    if a == [] {
      assert a + b == b;
    } else {
      assert (a + b)[0] == a[0];
      assert (a + b)[1..] == a[1..] + b;
      match Step(o, s, a[0])
      case Err(m) =>
      case Ok(s') => RunAppend(o, s', a[1..], b);
    }
  }

  /** What the parse loop consumed, fed unit by unit, gives what the loop ends with. */
  lemma {:induction false} ScanIsRun(o: ParserOptions, s: SState, cs: Text, pos: nat)
    requires Inv(s) && pos <= |cs|
    ensures Scan(o, s, cs, pos).0 == Run(o, s, cs[pos..Scan(o, s, cs, pos).1])
    decreases |cs| - pos
  {
    var (r, e) := Scan(o, s, cs, pos);
    if pos == |cs| || s.state == 7 {
      assert cs[pos..e] == [];
    } else {
      assert cs[pos..e][0] == cs[pos];
      assert cs[pos..e][1..] == cs[pos + 1..e];
      match Step(o, s, cs[pos])
      case Err(m) =>
      case Ok(s') => ScanIsRun(o, s', cs, pos + 1);
    }
  }

  /** The loop takes one unit at a time. */
  lemma ScanOne(o: ParserOptions, s: SState, cs: Text, p: nat, s': SState)
    requires Inv(s) && p < |cs| && s.state != 7 && Step(o, s, cs[p]) == Ok(s')
    ensures Scan(o, s, cs, p) == Scan(o, s', cs, p + 1)
  {
  }

  /** The loop runs straight through a stretch of input that does not close the
      string. */
  lemma {:induction false} ScanThrough(o: ParserOptions, s: SState, cs: Text, pos: nat, k: nat)
    requires Inv(s) && pos <= k <= |cs| && s.state != 7
    requires Run(o, s, cs[pos..k]).Ok? && Run(o, s, cs[pos..k]).value.state != 7
    ensures Scan(o, s, cs, pos) == Scan(o, Run(o, s, cs[pos..k]).value, cs, k)
    decreases k - pos
  {
    if pos < k {
      assert cs[pos..k][0] == cs[pos];
      assert cs[pos..k][1..] == cs[pos + 1..k];
      var s' := Step(o, s, cs[pos]).value;
      if s'.state == 7 {
        RunAtSeven(o, s', cs[pos + 1..k]);
        assert false;
      }
      ScanThrough(o, s', cs, pos + 1, k);
    }
  }

  /** The loop over a prefix p followed by q at index |p| + i is the loop over q at
      index i, shifted. */
  lemma {:induction false} ScanShift(o: ParserOptions, s: SState, p: Text, q: Text, i: nat)
    requires Inv(s) && i <= |q|
    ensures Scan(o, s, p + q, |p| + i) == (Scan(o, s, q, i).0, Scan(o, s, q, i).1 + |p|)
    decreases |q| - i
  {
    if i < |q| && s.state != 7 {
      assert (p + q)[|p| + i] == q[i];
      match Step(o, s, q[i])
      case Err(m) =>
      case Ok(s') => ScanShift(o, s', p, q, i + 1);
    }
  }

  /** A state other than 8 never steps to 8: only a returned result is in state 8. */
  lemma {:induction false} RunNeverEight(o: ParserOptions, s: SState, t: Text)
    requires Inv(s) && s.state != 8
    ensures Run(o, s, t).Ok? ==> Run(o, s, t).value.state != 8
    decreases |t|
  {
    if t != [] {
      match Step(o, s, t[0])
      case Err(m) =>
      case Ok(s') => RunNeverEight(o, s', t[1..]);
    }
  }

  /** Resumability: when a call runs out of input (it answers "not yet") the next
      call, on the rest of the input, answers exactly what a single call on the whole
      input would have answered. */
  lemma Resume(o: ParserOptions, s: SState, a: Text, b: Text, isComplete: bool)
    requires Inv(s) && s.state != 8
    requires TryParseSpec(o, s, a, 0, false).0 == TryOk(false)
    ensures TryParseSpec(o, s, a, 0, false).2 == |a|
    ensures var s1 := TryParseSpec(o, s, a, 0, false).1;
            var whole := TryParseSpec(o, s, a + b, 0, isComplete);
            var rest := TryParseSpec(o, s1, b, 0, isComplete);
            && whole.0 == rest.0
            && whole.2 == rest.2 + |a|
            && (!whole.0.TryErr? ==> whole.1 == rest.1)
  {
    var (res, next) := Scan(o, s, a, 0);
    var s1 := res.value;
    assert s1.state != 7 && next == |a|;
    ScanIsRun(o, s, a, 0);
    assert a[0..|a|] == a;
    RunNeverEight(o, s, a);
    assert (a + b)[0..|a|] == a;
    ScanThrough(o, s, a + b, 0, |a|);
    ScanShift(o, s1, a, b, 0);
  }

  // ---------------------------------------------------------------------------
  // Escapes

  /** The value of an upper-case hex digit is the digit's number. */
  lemma ParseHexUpper(n: int)
    requires 0 <= n < 16
    ensures ParseHex(HexUpper(n)) == n
  {
  }

  /** `\uXXXX` spelling the unit v with upper-case hex digits. */
  function UnicodeEscape(v: CodeUnit): (t: Text)
    ensures |t| == 6 && t[0] == BACKSLASH && t[1] == LOWER_U
  {
    var d := HexDigits(v);
    [BACKSLASH, LOWER_U, HexUpper(d.0), HexUpper(d.1), HexUpper(d.2), HexUpper(d.3)]
  }

  /** The four hex digits of a unit, most significant first; they spell the unit. */
  function HexDigits(v: CodeUnit): (d: (int, int, int, int))
    ensures 0 <= d.0 < 16 && 0 <= d.1 < 16 && 0 <= d.2 < 16 && 0 <= d.3 < 16
    ensures UnicodeUnit(d.0, d.1, d.2, d.3) == v
  {
    var r1 := v % 4096;
    var r2 := r1 % 256;
    (v / 4096, r1 / 256, r2 / 16, r2 % 16)
  }

  /** Inside a string, `\uXXXX` appends exactly the unit it spells, whatever unit
      that is (surrogate halves included), and goes back to plain string content. */
  lemma UnicodeEscapeRoundTrip(o: ParserOptions, s: SState, v: CodeUnit)
    requires Inv(s) && s.state == 1
    ensures Run(o, s, UnicodeEscape(v)) ==
            Ok(s.(builder := s.builder + [v], u1 := HexDigits(v).0, u2 := HexDigits(v).1, u3 := HexDigits(v).2))
  {
    var t := UnicodeEscape(v);
    var (h1, h2, h3, h4) := HexDigits(v);
    ParseHexUpper(h1);
    ParseHexUpper(h2);
    ParseHexUpper(h3);
    ParseHexUpper(h4);
    var s3 := s.(state := 3);
    var s4 := s3.(state := 4, u1 := h1);
    var s5 := s4.(state := 5, u2 := h2);
    var s6 := s5.(state := 6, u3 := h3);
    RunStep(o, s, t, s.(state := 2));
    RunStep(o, s.(state := 2), t[1..], s3);
    RunStep(o, s3, t[2..], s4);
    RunStep(o, s4, t[3..], s5);
    RunStep(o, s5, t[4..], s6);
    RunStep(o, s6, t[5..], s.(builder := s.builder + [v], u1 := h1, u2 := h2, u3 := h3));
  }

  /** Feeding a text is feeding its first unit, then the rest. */
  lemma RunStep(o: ParserOptions, s: SState, t: Text, s': SState)
    requires Inv(s) && t != [] && Step(o, s, t[0]) == Ok(s')
    ensures Run(o, s, t) == Run(o, s', t[1..])
  {
  }

  /** The quoting of one unit inside a string delimited by q: the delimiter and the
      backslash get a backslash, control characters (below 0x20) a `\u` escape. */
  function EscapeUnit(q: CodeUnit, c: CodeUnit): Text
  {
    if c == q || c == BACKSLASH then [BACKSLASH, c]
    else if c < 32 then UnicodeEscape(c)
    else [c]
  }

  /** The string body an encoder writes for x between delimiters q. */
  function Escape(q: CodeUnit, x: Text): Text
    decreases |x|, 1
  {
    if x == [] then [] else EscapeFirst(q, x)
  }

  /** The escaped first unit of a non-empty x, then the rest. */
  function EscapeFirst(q: CodeUnit, x: Text): Text
    requires x != []
    decreases |x|, 0
  {
    EscapeUnit(q, x[0]) + Escape(q, x[1..])
  }

  /** The text a JSON (q is `"`) or single-quoted (q is `'`) encoder writes for x. */
  function Quote(q: CodeUnit, x: Text): (t: Text)
    ensures |t| >= 2 && t[0] == q && t[|t| - 1] == q
  {
    [q] + Escape(q, x) + [q]
  }

  /** The quote characters the parser accepts under the options. */
  predicate Delimiter(o: ParserOptions, q: CodeUnit)
  {
    q == DQUOTE || (q == SQUOTE && o.isStringSingleQuotes)
  }

  /** The state after the parser reads the escaped form of x: the same state and
      delimiter with x appended (and the hex digits of its last `\u` escape). */
  function AfterEscape(s: SState, x: Text): SState
    decreases |x|
  {
    if x == [] then s
    else
      var c := x[0];
      var s' := if c != s.beginning && c != BACKSLASH && c < 32
                then s.(builder := s.builder + [c], u1 := HexDigits(c).0, u2 := HexDigits(c).1, u3 := HexDigits(c).2)
                else s.(builder := s.builder + [c]);
      AfterEscape(s', x[1..])
  }

  lemma {:induction false} AfterEscapeShape(s: SState, x: Text)
    ensures AfterEscape(s, x).builder == s.builder + x
    ensures AfterEscape(s, x).(builder := s.builder, u1 := s.u1, u2 := s.u2, u3 := s.u3) == s
    decreases |x|
  {
    if x != [] {
      var c := x[0];
      var s' := if c != s.beginning && c != BACKSLASH && c < 32
                then s.(builder := s.builder + [c], u1 := HexDigits(c).0, u2 := HexDigits(c).1, u3 := HexDigits(c).2)
                else s.(builder := s.builder + [c]);
      AfterEscapeShape(s', x[1..]);
      assert s.builder + [c] + x[1..] == s.builder + x;
    }
  }

  lemma EscapeUnitRun(o: ParserOptions, s: SState, c: CodeUnit)
    requires Inv(s) && s.state == 1 && Delimiter(o, s.beginning)
    ensures Run(o, s, EscapeUnit(s.beginning, c)) == Ok(AfterEscape(s, [c]))
  {
    var q := s.beginning;
    assert [c][1..] == [];
    if c == q || c == BACKSLASH {
      var t := [BACKSLASH, c];
      assert Step(o, s, BACKSLASH) == Ok(s.(state := 2));
      assert Step(o, s.(state := 2), c) == Ok(s.(builder := s.builder + [c]));
      RunAppend(o, s, [BACKSLASH], [c]);
      assert t == [BACKSLASH] + [c];
    } else if c < 32 {
      UnicodeEscapeRoundTrip(o, s, c);
    } else {
      assert Step(o, s, c) == Ok(s.(builder := s.builder + [c]));
    }
  }

  /** Reading the escaped form of x appends x, unit for unit. */
  lemma {:induction false} EscapeRun(o: ParserOptions, s: SState, x: Text)
    requires Inv(s) && s.state == 1 && Delimiter(o, s.beginning)
    ensures Run(o, s, Escape(s.beginning, x)) == Ok(AfterEscape(s, x))
    decreases |x|
  {
    if x != [] {
      var q := s.beginning;
      EscapeUnitRun(o, s, x[0]);
      var s' := AfterEscape(s, [x[0]]);
      assert AfterEscape(s, x) == AfterEscape(s', x[1..]);
      AfterEscapeShape(s, [x[0]]);
      EscapeRun(o, s', x[1..]);
      RunAppend(o, s, EscapeUnit(q, x[0]), Escape(q, x[1..]));
    }
  }

  /** The parse loop, started before the quoted form of x (at position p of any
      input), stops right after its closing delimiter with x appended. */
  lemma QuoteScan(o: ParserOptions, s: SState, q: CodeUnit, x: Text, cs: Text, p: nat)
    requires Inv(s) && s.state == 0 && Delimiter(o, q)
    requires p + |Quote(q, x)| <= |cs| && cs[p..p + |Quote(q, x)|] == Quote(q, x)
    ensures Scan(o, s, cs, p).1 == p + |Quote(q, x)|
    ensures Scan(o, s, cs, p).0.Ok? && Scan(o, s, cs, p).0.value.state == 7
    ensures Scan(o, s, cs, p).0.value.builder == s.builder + x
  {
    var e := Escape(q, x);
    var s1 := s.(state := 1, beginning := q);
    assert Quote(q, x) == [q] + e + [q];
    assert cs[p] == q;
    assert Step(o, s, q) == Ok(s1);
    EscapeRun(o, s1, x);
    AfterEscapeShape(s1, x);
    var s2 := AfterEscape(s1, x);
    assert cs[p + 1..p + 1 + |e|] == e by {
      var qx := Quote(q, x);
      var inner, whole := cs[p + 1..p + 1 + |e|], cs[p..p + |qx|];
      assert forall i | 0 <= i < |e| :: inner[i] == whole[1 + i] == qx[1 + i];
    }
    var z := p + 1 + |e|;
    assert z + 1 == p + |Quote(q, x)|;
    ScanOne(o, s, cs, p, s1);
    ScanThrough(o, s1, cs, p + 1, z);
    assert Scan(o, s1, cs, p + 1) == Scan(o, s2, cs, z);
    assert cs[z] == q;
    assert Step(o, s2, q) == Ok(s2.(state := 7));
    ScanOne(o, s2, cs, z, s2.(state := 7));
    assert Scan(o, s2.(state := 7), cs, z + 1) == (Ok(s2.(state := 7)), z + 1);
  }

  /** Round trip: a fresh (or reset) parser reads the quoted form of any text x back
      as x, stops right after the closing delimiter, and leaves what follows alone. */
  lemma QuoteRoundTrip(o: ParserOptions, s: SState, q: CodeUnit, x: Text, rest: Text, isComplete: bool)
    requires Inv(s) && s.state == 0 && s.builder == [] && Delimiter(o, q) && !o.isEnd
    ensures BuildSpec(o, s, Quote(q, x) + rest, 0, isComplete).0 == Built(x)
    ensures BuildSpec(o, s, Quote(q, x) + rest, 0, isComplete).2 == |Quote(q, x)|
  {
    var cs := Quote(q, x) + rest;
    assert cs[0..|Quote(q, x)|] == Quote(q, x);
    QuoteScan(o, s, q, x, cs, 0);
    assert [] + x == x;
  }

  /** The same for a whole input when the parser must reach its end. */
  lemma QuoteRoundTripAtEnd(o: ParserOptions, s: SState, q: CodeUnit, x: Text)
    requires Inv(s) && s.state == 0 && s.builder == [] && Delimiter(o, q) && o.isEnd
    ensures BuildSpec(o, s, Quote(q, x), 0, true).0 == Built(x)
  {
    var o' := o.(isEnd := false);
    QuoteRoundTrip(o', s, q, x, [], true);
    assert Quote(q, x) + [] == Quote(q, x);
    ScanSameOptions(o, o', s, Quote(q, x), 0);
  }

  /** The end-of-input option plays no part in the unit transitions. */
  lemma {:induction false} ScanSameOptions(o: ParserOptions, o': ParserOptions, s: SState, cs: Text, pos: nat)
    requires Inv(s) && pos <= |cs| && o' == o.(isEnd := o'.isEnd)
    ensures Scan(o, s, cs, pos) == Scan(o', s, cs, pos)
    decreases |cs| - pos
  {
    if pos < |cs| && s.state != 7 {
      assert Step(o, s, cs[pos]) == Step(o', s, cs[pos]);
      match Step(o, s, cs[pos])
      case Err(m) =>
      case Ok(s') => ScanSameOptions(o, o', s', cs, pos + 1);
    }
  }

  /** Control characters must be escaped: read raw inside a string they are an error. */
  lemma RawControlRejected(o: ParserOptions, s: SState, c: CodeUnit)
    requires Inv(s) && s.state == 1 && c < 32
    ensures Step(o, s, c).Err?
  {
  }

  // ---------------------------------------------------------------------------
  // Parenthesised strings

  /** The change of parenthesis depth one unit causes. */
  function DepthDelta(c: CodeUnit): int
  {
    if c == LPAREN then 1 else if c == RPAREN then -1 else 0
  }

  /** From depth d, t never brings the depth below 1. */
  predicate StaysOpen(d: int, t: Text)
    decreases |t|
  {
    t == [] || (d + DepthDelta(t[0]) >= 1 && StaysOpen(d + DepthDelta(t[0]), t[1..]))
  }

  /** The depth after t, starting from d. */
  function DepthAfter(d: int, t: Text): int
    decreases |t|
  {
    if t == [] then d else DepthAfter(d + DepthDelta(t[0]), t[1..])
  }

  /** Inside a parenthesised string, text that does not close it is kept verbatim. */
  lemma {:induction false} ParenRun(o: ParserOptions, s: SState, t: Text)
    requires Inv(s) && s.state == 100 && StaysOpen(s.depth, t)
    ensures Run(o, s, t) == Ok(s.(builder := s.builder + t, depth := DepthAfter(s.depth, t)))
    decreases |t|
  {
    if t != [] {
      var s' := s.(builder := s.builder + [t[0]], depth := s.depth + DepthDelta(t[0]));
      assert Step(o, s, t[0]) == Ok(s');
      ParenRun(o, s', t[1..]);
      assert Run(o, s, t) == Run(o, s', t[1..]);
      assert DepthAfter(s.depth, t) == DepthAfter(s'.depth, t[1..]);
      assert s.builder + [t[0]] + t[1..] == s.builder + t;
    } else {
      assert s.builder + t == s.builder;
    }
  }

  /** A parenthesised string whose inner parentheses balance is read back as its
      inner text, up to and excluding the matching close parenthesis. */
  lemma ParenRoundTrip(o: ParserOptions, s: SState, t: Text, rest: Text, isComplete: bool)
    requires Inv(s) && s.state == 0 && s.builder == [] && o.isParenthesesString && !o.isEnd
    requires StaysOpen(1, t) && DepthAfter(1, t) == 1
    ensures BuildSpec(o, s, [LPAREN] + t + [RPAREN] + rest, 0, isComplete).0 == Built(t)
    ensures BuildSpec(o, s, [LPAREN] + t + [RPAREN] + rest, 0, isComplete).2 == |t| + 2
  {
    var cs := [LPAREN] + t + [RPAREN] + rest;
    var s1 := s.(state := 100, depth := 1);
    assert Step(o, s, LPAREN) == Ok(s1);
    ParenRun(o, s1, t);
    var s2 := s1.(builder := t, depth := 1);
    assert s1.builder + t == t;
    assert cs == [LPAREN] + t + [RPAREN] + rest;
    assert cs[1..1 + |t|] == t;
    ScanThrough(o, s1, cs, 1, 1 + |t|);
    assert cs[1 + |t|] == RPAREN;
    assert Step(o, s2, RPAREN) == Ok(s2.(state := 7, depth := 0));
    ScanOne(o, s, cs, 0, s1);
    ScanOne(o, s2, cs, 1 + |t|, s2.(state := 7, depth := 0));
    assert Scan(o, s, cs, 0) == (Ok(s2.(state := 7, depth := 0)), 2 + |t|);
    assert TryParseSpec(o, s, cs, 0, isComplete) == (TryOk(true), s2.(state := 8, depth := 0), 2 + |t|);
    assert CheckEnd(o, cs, 2 + |t|, "string") == Ok(2 + |t|);
  }
}
