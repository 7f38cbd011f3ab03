/** The incremental JSON string parser (vjson/parser/StringParser.kt): a character
    state machine over section 7 of RFC 8259, with two extensions, 'single quoted'
    strings and (parenthesised) strings. Input may arrive in pieces: a call that runs
    out of input keeps its state and the next call resumes from it.

    States: 0 expects the opening delimiter, 1 is inside the string, 2 follows a
    backslash, 3..6 read the four hex digits of `\uXXXX`, 7 has just seen the closing
    delimiter, 8 has returned its result, 100 is inside a parenthesised string.

    The pure part (SState, Step, Scan, TryParseSpec, BuildSpec) is the specification
    the class StringParser is proved against. */
module StringParsing {
  import opened Chars
  import opened Wrappers
  import opened ParserUtils

  /** The parser's fields: state, the text built so far, the opening delimiter, the
      first three hex digits of a `\u` escape and the parenthesis depth. */
  datatype SState = SState(state: int, builder: Text, beginning: CodeUnit,
                           u1: int, u2: int, u3: int, depth: int)

  /** The states the machine can be in, with the facts each one relies on. */
  ghost predicate Inv(s: SState)
  {
    && s.state in {0, 1, 2, 3, 4, 5, 6, 7, 8, 100}
    && (1 <= s.state <= 6 ==> s.beginning == DQUOTE || s.beginning == SQUOTE)
    && (4 <= s.state <= 6 ==> 0 <= s.u1 < 16)
    && (5 <= s.state <= 6 ==> 0 <= s.u2 < 16)
    && (s.state == 6 ==> 0 <= s.u3 < 16)
    && (s.state == 100 ==> s.depth >= 1)
  }

  /** The state of a freshly constructed parser. */
  const Fresh: SState := SState(0, [], 0, -1, -1, -1, 0)

  /** reset: back to state 0 with an empty buffer and depth 0; the delimiter and
      the hex digits keep their old values. */
  function ResetState(s: SState): (r: SState)
    ensures r.state == 0 && r.builder == [] && r.depth == 0
    ensures r.beginning == s.beginning && r.u1 == s.u1 && r.u2 == s.u2 && r.u3 == s.u3
  {
    s.(state := 0, builder := [], depth := 0)
  }

  predicate IsHexDigit(c: CodeUnit)
  {
    (DIGIT0 <= c <= DIGIT9) || (UPPER_A <= c <= UPPER_F) || (LOWER_A <= c <= LOWER_F)
  }

  /** The hex digit for 0..15, upper case. */
  function HexUpper(n: int): (c: CodeUnit)
    requires 0 <= n < 16
  {
    if n < 10 then DIGIT0 + n else UPPER_A + (n - 10)
  }

  /** parseHex: the value of a hex digit in either case, -1 for anything else. */
  function ParseHex(c: CodeUnit): (r: int)
    ensures -1 <= r < 16
    ensures r == -1 <==> !IsHexDigit(c)
    ensures r != -1 ==> c == HexUpper(r) || c == HexUpper(r) + (LOWER_A - UPPER_A)
  {
    if DIGIT0 <= c <= DIGIT9 then c - DIGIT0
    else if UPPER_A <= c <= UPPER_F then c - (UPPER_A - 10)
    else if LOWER_A <= c <= LOWER_F then c - (LOWER_A - 10)
    else -1
  }

  /** The unit a `\uXXXX` escape denotes: (u1 shl 12) or (u2 shl 8) or (u3 shl 4) or
      u4; the four nibbles do not overlap, so the `or` is a sum. */
  function UnicodeUnit(u1: int, u2: int, u3: int, u4: int): CodeUnit
    requires 0 <= u1 < 16 && 0 <= u2 < 16 && 0 <= u3 < 16 && 0 <= u4 < 16
  {
    u1 * 4096 + u2 * 256 + u3 * 16 + u4
  }

  /** The unit a one-character escape `\e` stands for, or None if `\e` is not an
      escape (`\u` is handled apart). `\'` exists only with single-quoted strings. */
  function EscapeValue(o: ParserOptions, e: CodeUnit): Option<CodeUnit>
  {
    if e == DQUOTE then Some(DQUOTE)
    else if e == SQUOTE then (if o.isStringSingleQuotes then Some(SQUOTE) else None)
    else if e == BACKSLASH then Some(BACKSLASH)
    else if e == SLASH then Some(SLASH)
    else if e == LOWER_B then Some(BACKSPACE)
    else if e == LOWER_F then Some(FORMFEED)
    else if e == LOWER_N then Some(LF)
    else if e == LOWER_R then Some(CR)
    else if e == LOWER_T then Some(TAB)
    else None
  }

  /** One character of input. States 7 and 8 consume nothing, so they are fixed
      points here; the loop stops before feeding them. */
  function Step(o: ParserOptions, s: SState, c: CodeUnit): (r: Result<SState>)
    requires Inv(s)
    ensures r.Ok? ==> Inv(r.value)
    ensures r.Ok? && s.state != 8 ==> r.value.state != 8
  {
    if s.state == 0 then
      if IsWhiteSpace(c) then Ok(s)
      else if c == DQUOTE then Ok(s.(state := 1, beginning := DQUOTE))
      else if c == SQUOTE && o.isStringSingleQuotes then Ok(s.(state := 1, beginning := SQUOTE))
      else if c == LPAREN && o.isParenthesesString then Ok(s.(state := 100, depth := 1))
      else Err("invalid character for string: not starts with \"")
    else if s.state == 1 then
      if c == BACKSLASH then Ok(s.(state := 2))
      else if c == s.beginning then Ok(s.(state := 7))
      else if c > 31 then Ok(s.(builder := s.builder + [c]))
      else Err("invalid character in string")
    else if s.state == 2 then
      if c == LOWER_U then Ok(s.(state := 3))
      else match EscapeValue(o, c)
        case Some(v) => Ok(s.(state := 1, builder := s.builder + [v]))
        case None => Err("invalid escape character")
    else if 3 <= s.state <= 6 then
      var h := ParseHex(c);
      if h == -1 then Err("invalid hex character in \\uHHHH")
      else if s.state == 3 then Ok(s.(state := 4, u1 := h))
      else if s.state == 4 then Ok(s.(state := 5, u2 := h))
      else if s.state == 5 then Ok(s.(state := 6, u3 := h))
      else Ok(s.(state := 1, builder := s.builder + [UnicodeUnit(s.u1, s.u2, s.u3, h)]))
    else if s.state == 100 then
      if c == RPAREN then
        if s.depth - 1 == 0 then Ok(s.(state := 7, depth := 0))
        else Ok(s.(depth := s.depth - 1, builder := s.builder + [c]))
      else if c == LPAREN then Ok(s.(depth := s.depth + 1, builder := s.builder + [c]))
      else Ok(s.(builder := s.builder + [c]))
    else Ok(s)
  }

  /** Feeding a whole text, one unit at a time; the first error stops it. */
  function Run(o: ParserOptions, s: SState, cs: Text): (r: Result<SState>)
    requires Inv(s)
    ensures r.Ok? ==> Inv(r.value)
    decreases |cs|
  {
    if cs == [] then Ok(s)
    else match Step(o, s, cs[0])
      case Err(m) => Err(m)
      case Ok(s') => Run(o, s', cs[1..])
  }

  /** What one call of the parse loop does from `pos`: feed units until the closing
      delimiter has been seen (state 7) or the input ends. Also gives the position
      after the last unit consumed. */
  function Scan(o: ParserOptions, s: SState, cs: Text, pos: nat): (r: (Result<SState>, nat))
    requires Inv(s) && pos <= |cs|
    ensures pos <= r.1 <= |cs|
    ensures pos < |cs| && s.state != 7 ==> r.1 > pos
    ensures r.0.Ok? ==> Inv(r.0.value) && (r.1 == |cs| || r.0.value.state == 7)
    decreases |cs| - pos, 1
  {
    if pos == |cs| || s.state == 7 then (Ok(s), pos) else ScanFrom(o, s, cs, pos)
  }

  /** One turn of the parse loop at `pos`, then the rest of the loop. */
  function ScanFrom(o: ParserOptions, s: SState, cs: Text, pos: nat): (r: (Result<SState>, nat))
    requires Inv(s) && pos < |cs| && s.state != 7
    ensures pos < r.1 <= |cs|
    ensures r.0.Ok? ==> Inv(r.0.value) && (r.1 == |cs| || r.0.value.state == 7)
    decreases |cs| - pos, 0
  {
    match Step(o, s, cs[pos])
    case Err(m) => (Err(m), pos + 1)
    case Ok(s') => Scan(o, s', cs, pos + 1)
  }

  datatype TryResult = TryOk(done: bool) | TryErr(msg: string) | TryFinished

  /** tryParse: true once the closing delimiter is read (the state becomes 8);
      false when the input ran out first, unless the input is complete, which is an
      error; after the result has been returned, anything but blanks is a
      ParserFinishedException. */
  function TryParseSpec(o: ParserOptions, s: SState, cs: Text, pos: nat, isComplete: bool)
    : (r: (TryResult, SState, nat))
    requires Inv(s) && pos <= |cs|
    ensures pos <= r.2 <= |cs|
    ensures Inv(r.1)
  {
    if s.state == 8 then
      var p := SkipBlank(cs, pos);
      (if p < |cs| then TryFinished else TryOk(false), s, p)
    else
      var (res, next) := Scan(o, s, cs, pos);
      match res
      case Err(m) => (TryErr(m), s, next)
      case Ok(s') =>
        if s'.state == 7 then (TryOk(true), s'.(state := 8), next)
        else if isComplete then (TryErr("expecting more characters to build string"), s', next)
        else (TryOk(false), s', next)
  }

  /** build: the parsed text once the string is complete (the end-of-input rule of
      the options applies to what follows), null while more input is needed. */
  function BuildSpec(o: ParserOptions, s: SState, cs: Text, pos: nat, isComplete: bool)
    : (r: (BuildOutcome<Text>, SState, nat))
    requires Inv(s) && pos <= |cs|
    ensures pos <= r.2 <= |cs|
    ensures Inv(r.1)
  {
    var (t, s', next) := TryParseSpec(o, s, cs, pos, isComplete);
    match t
    case TryErr(m) => (ParseError(m), s', next)
    case TryFinished => (Finished, s', next)
    case TryOk(done) =>
      if !done then (Pending, s', next)
      else match CheckEnd(o, cs, next, "string")
        case Err(m) => (ParseError(m), s', next)
        case Ok(p) => (Built(s'.builder), s', p)
  }

  class StringParser {
    const opts: ParserOptions
    var state: int
    var builder: Text
    var beginning: CodeUnit
    var u1: int
    var u2: int
    var u3: int
    var parenthesesStringStack: int

    function Abs(): SState
      reads this
    {
      SState(state, builder, beginning, u1, u2, u3, parenthesesStringStack)
    }

    ghost predicate Valid()
      reads this
    {
      Inv(Abs())
    }

    constructor (opts: ParserOptions)
      ensures Valid() && this.opts == opts && Abs() == Fresh
    {
      this.opts := opts;
      state := 0;
      builder := [];
      beginning := 0;
      u1, u2, u3 := -1, -1, -1;
      parenthesesStringStack := 0;
    }

    method Reset()
      modifies this
      ensures Valid() && Abs() == ResetState(old(Abs()))
    {
      state := 0;
      builder := [];
      parenthesesStringStack := 0;
    }

    /** completed(): the result has been returned. */
    function Completed(): (r: bool)
      reads this
    {
      state == 8
    }

    method HandleParenthesesString(c: CodeUnit)
      requires Valid() && state == 100
      modifies this
      ensures Valid() && Ok(Abs()) == Step(opts, old(Abs()), c)
    {
      if c == RPAREN {
        parenthesesStringStack := parenthesesStringStack - 1;
        if parenthesesStringStack == 0 {
          state := 7;
          return;
        }
        builder := builder + [c];
      } else if c == LPAREN {
        parenthesesStringStack := parenthesesStringStack + 1;
        builder := builder + [c];
      } else {
        builder := builder + [c];
      }
    }

    /** One unit of the loop body, in the branches of the source. */
    method Consume(c: CodeUnit) returns (err: Option<string>)
      requires Valid() && state != 7 && state != 8
      modifies this
      ensures Valid()
      ensures err.None? ==> Step(opts, old(Abs()), c) == Ok(Abs())
      ensures err.Some? ==> Step(opts, old(Abs()), c) == Err(err.value) && Abs() == old(Abs())
    {
      err := None;
      if state == 0 {
        if IsWhiteSpace(c) {
        } else if c == DQUOTE {
          beginning := DQUOTE;
          state := 1;
        } else if c == SQUOTE && opts.isStringSingleQuotes {
          beginning := SQUOTE;
          state := 1;
        } else if c == LPAREN && opts.isParenthesesString {
          state := 100;
          parenthesesStringStack := 1;
        } else {
          err := Some("invalid character for string: not starts with \"");
        }
      } else if state == 1 {
        if c == BACKSLASH {
          state := 2;
        } else if c == beginning {
          state := 7;
        } else if c > 31 {
          builder := builder + [c];
        } else {
          err := Some("invalid character in string");
        }
      } else if state == 2 {
        if c == LOWER_U {
          state := 3;
        } else {
          var v := EscapeValue(opts, c);
          if v.Some? {
            builder := builder + [v.value];
            state := 1;
          } else {
            err := Some("invalid escape character");
          }
        }
      } else if 3 <= state <= 6 {
        var h := ParseHex(c);
        if h == -1 {
          err := Some("invalid hex character in \\uHHHH");
        } else if state == 3 {
          u1 := h;
          state := 4;
        } else if state == 4 {
          u2 := h;
          state := 5;
        } else if state == 5 {
          u3 := h;
          state := 6;
        } else {
          builder := builder + [UnicodeUnit(u1, u2, u3, h)];
          state := 1;
        }
      } else {
        HandleParenthesesString(c);
      }
    }

    method TryParse(cs: Text, pos: nat, isComplete: bool) returns (r: TryResult, next: nat)
      requires Valid() && pos <= |cs|
      modifies this
      ensures Valid()
      ensures (r, next) == (TryParseSpec(opts, old(Abs()), cs, pos, isComplete).0,
                            TryParseSpec(opts, old(Abs()), cs, pos, isComplete).2)
      ensures !r.TryErr? ==> Abs() == TryParseSpec(opts, old(Abs()), cs, pos, isComplete).1
      ensures r.TryErr? ==> state != 7 && state != 8
    {
      if state == 8 {
        next := SkipBlank(cs, pos);
        r := if next < |cs| then TryFinished else TryOk(false);
        return;
      }
      next := pos;
      while next < |cs| && state != 7
        invariant pos <= next <= |cs|
        invariant Valid() && state != 8
        invariant Scan(opts, old(Abs()), cs, pos) == Scan(opts, Abs(), cs, next)
        decreases |cs| - next
      {
        var c := cs[next];
        next := next + 1;
        var err := Consume(c);
        if err.Some? {
          r := TryErr(err.value);
          return;
        }
      }
      if state == 7 {
        state := 8;
        r := TryOk(true);
      } else if isComplete {
        r := TryErr("expecting more characters to build string");
      } else {
        r := TryOk(false);
      }
    }

    method Build(cs: Text, pos: nat, isComplete: bool) returns (r: BuildOutcome<Text>, next: nat)
      requires Valid() && pos <= |cs|
      modifies this
      ensures Valid()
      ensures (r, next) == (BuildSpec(opts, old(Abs()), cs, pos, isComplete).0,
                            BuildSpec(opts, old(Abs()), cs, pos, isComplete).2)
      ensures !r.ParseError? ==> Abs() == BuildSpec(opts, old(Abs()), cs, pos, isComplete).1
      ensures r.ParseError? && !opts.isEnd ==> state != 7 && state != 8
      ensures r.Built? ==> Completed()
    {
      var t;
      t, next := TryParse(cs, pos, isComplete);
      match t
      case TryErr(m) => r := ParseError(m);
      case TryFinished => r := Finished;
      case TryOk(done) =>
        if !done {
          r := Pending;
        } else {
          var e := CheckEnd(opts, cs, next, "string");
          match e
          case Err(m) => r := ParseError(m);
          case Ok(p) => r := Built(builder); next := p;
        }
    }

    /** Parser.feed: build with more input to come. */
    method Feed(cs: Text, pos: nat) returns (r: BuildOutcome<Text>, next: nat)
      requires Valid() && pos <= |cs|
      modifies this
      ensures Valid()
      ensures (r, next) == (BuildSpec(opts, old(Abs()), cs, pos, false).0,
                            BuildSpec(opts, old(Abs()), cs, pos, false).2)
      ensures !r.ParseError? ==> Abs() == BuildSpec(opts, old(Abs()), cs, pos, false).1
    {
      r, next := Build(cs, pos, false);
    }

    /** Parser.last: build with this being the end of the input. */
    method Last(cs: Text, pos: nat) returns (r: BuildOutcome<Text>, next: nat)
      requires Valid() && pos <= |cs|
      modifies this
      ensures Valid()
      ensures (r, next) == (BuildSpec(opts, old(Abs()), cs, pos, true).0,
                            BuildSpec(opts, old(Abs()), cs, pos, true).2)
      ensures !r.ParseError? ==> Abs() == BuildSpec(opts, old(Abs()), cs, pos, true).1
    {
      r, next := Build(cs, pos, true);
    }

    /** Parser.end: `last` on an empty stream. */
    method End() returns (r: BuildOutcome<Text>)
      requires Valid()
      modifies this
      ensures Valid()
      ensures r == BuildSpec(opts, old(Abs()), [], 0, true).0
      ensures !r.ParseError? ==> Abs() == BuildSpec(opts, old(Abs()), [], 0, true).1
    {
      var next;
      r, next := Last([], 0);
    }
  }
}
