/** Choosing a parser by the first non-blank character, and reading an unquoted
    value (vjson/parser/ParserUtils.kt: parser, extractNoQuotesString,
    parserForValueNoQuotes). */
module ParserDispatch {
  import opened Chars
  import opened Wrappers
  import opened ParserUtils
  import opened StringParsing
  import ObjectParsing

  /** The parser the dispatch hands the input to. */
  datatype ParserKind = ObjectKind | ArrayKind | StringKind | NullKind | BoolKind | NumberKind

  /** Whether NumberParser, BoolParser and NullParser (not part of this model) read
      a whole unquoted text as their value, leaving nothing but blanks. */
  datatype Acceptors = Acceptors(number: Text -> bool, boolean: Text -> bool, nil: Text -> bool)

  /** The options of the string parser that reads a quoted part of an unquoted
      value: single quotes on, no end-of-input requirement, the rest default. */
  const QuoteOptions: ParserOptions := ParserOptions(false, true, false, false, false)

  const MismatchError: string := "unexpected char, expecting another closing symbol"
  const EofError: string := "unexpected eof, expecting symbols"

  predicate IsOpener(c: CodeUnit) { c == LPAREN || c == LBRACKET || c == LBRACE }

  predicate IsCloser(c: CodeUnit) { c == RPAREN || c == RBRACKET || c == RBRACE }

  /** The symbol that closes an opening bracket. */
  function Closer(c: CodeUnit): (r: CodeUnit)
    requires IsOpener(c)
    ensures IsCloser(r)
  {
    if c == LPAREN then RPAREN else if c == LBRACKET then RBRACKET else RBRACE
  }

  /** The characters that end an unquoted value outside brackets; `;` only when it
      stands for a comma. */
  predicate IsSeparator(opts: ParserOptions, c: CodeUnit)
  {
    c == COMMA || c == LF || c == CR || (c == SEMICOLON && opts.isSemicolonAsComma)
  }

  /** A character that is simply copied, whatever the bracket depth. */
  predicate IsPlain(opts: ParserOptions, c: CodeUnit)
  {
    !IsSeparator(opts, c) && !IsOpener(c) && !IsCloser(c) && c != SQUOTE && c != DQUOTE
  }

  /** A string parser with QuoteOptions, given the whole rest of the input from a
      quote, either fails or reads a string that ends after the quote. */
  lemma QuoteOutcome(cs: Text, i: nat)
    requires i < |cs|
    ensures var (b, _, e) := BuildSpec(QuoteOptions, Fresh, cs, i, true);
            (b.Built? || b.ParseError?) && (b.Built? ==> i < e)
  {
  }

  /** Where the quoted part starting at i ends, or the string parser's error. */
  function QuotedEnd(cs: Text, i: nat): (r: Result<nat>)
    requires i < |cs|
    ensures r.Ok? ==> i < r.value <= |cs|
    ensures r.Ok? <==> BuildSpec(QuoteOptions, Fresh, cs, i, true).0.Built?
  {
    QuoteOutcome(cs, i);
    var (b, _, e) := BuildSpec(QuoteOptions, Fresh, cs, i, true);
    if b.Built? then Ok(e) else Err(b.msg)
  }

  /** What one turn of the extractNoQuotesString loop does at position i: copy the
      characters up to `next` and go on with the new stack of expected closing
      symbols (top last), stop before i, or fail. */
  datatype Move = Continue(next: nat, stack: seq<CodeUnit>) | Stop | Fail(msg: string)

  function ExtractStep(opts: ParserOptions, cs: Text, i: nat, stack: seq<CodeUnit>): (r: Move)
    requires i < |cs|
    ensures r.Continue? ==> i < r.next <= |cs|
    ensures r.Stop? <==> stack == [] && (IsSeparator(opts, cs[i]) || IsCloser(cs[i]))
    ensures IsPlain(opts, cs[i]) ==> r == Continue(i + 1, stack)
    ensures IsSeparator(opts, cs[i]) && stack != [] ==> r == Continue(i + 1, stack)
    ensures IsOpener(cs[i]) ==> r == Continue(i + 1, stack + [Closer(cs[i])])
    ensures IsCloser(cs[i]) && stack != [] ==>
              r == if stack[|stack| - 1] == cs[i] then Continue(i + 1, stack[..|stack| - 1]) else Fail(MismatchError)
  {
    var c := cs[i];
    if c == COMMA || c == SEMICOLON || c == LF || c == CR then
      if c == SEMICOLON && !opts.isSemicolonAsComma then Continue(i + 1, stack)
      else if stack == [] then Stop
      else Continue(i + 1, stack)
    else if IsOpener(c) then Continue(i + 1, stack + [Closer(c)])
    else if IsCloser(c) then
      if stack == [] then Stop
      else if stack[|stack| - 1] == c then Continue(i + 1, stack[..|stack| - 1])
      else Fail(MismatchError)
    else if c == SQUOTE || c == DQUOTE then
      match QuotedEnd(cs, i)
      case Err(m) => Fail(m)
      case Ok(e) => Continue(e, stack)
    else Continue(i + 1, stack)
  }

  /** The loop of extractNoQuotesString from position i with the text copied so far;
      the value read from p0 is the copied text and the number of characters read. */
  function ExtractFrom(opts: ParserOptions, cs: Text, p0: nat, i: nat, stack: seq<CodeUnit>, sb: Text)
    : (r: Result<(Text, nat)>)
    requires p0 <= i <= |cs|
    ensures r.Ok? ==> i <= p0 + r.value.1 <= |cs|
    decreases |cs| - i
  {
    if i == |cs| then
      if stack == [] then Ok((sb, i - p0)) else Err(EofError)
    else
      match ExtractStep(opts, cs, i, stack)
      case Stop => Ok((sb, i - p0))
      case Fail(m) => Err(m)
      case Continue(j, stack') => ExtractFrom(opts, cs, p0, j, stack', sb + cs[i..j])
  }

  /** One turn of the loop: what is read from i is what the step at i leads to. */
  lemma ExtractFromStep(opts: ParserOptions, cs: Text, p0: nat, i: nat, stack: seq<CodeUnit>, sb: Text)
    requires p0 <= i < |cs|
    ensures var m := ExtractStep(opts, cs, i, stack);
            && (m.Stop? ==> ExtractFrom(opts, cs, p0, i, stack, sb) == Ok((sb, i - p0)))
            && (m.Fail? ==> ExtractFrom(opts, cs, p0, i, stack, sb) == Err(m.msg))
            && (m.Continue? ==> ExtractFrom(opts, cs, p0, i, stack, sb)
                                == ExtractFrom(opts, cs, p0, m.next, m.stack, sb + cs[i..m.next]))
  {
  }

  /** extractNoQuotesString: the leading blanks are consumed, then the unquoted text
      up to a separator or an unmatched closing bracket outside brackets, or to the
      end of the input, is peeked at without being consumed; the result is that
      text and the number of characters it spans after the blanks. */
  function ExtractSpec(opts: ParserOptions, cs: Text, pos: nat): (r: Result<(Text, nat)>)
    requires pos <= |cs|
    ensures r.Ok? ==> SkipBlank(cs, pos) + r.value.1 <= |cs|
  {
    var p0 := SkipBlank(cs, pos);
    ExtractFrom(opts, cs, p0, p0, [], [])
  }

  /** A quoted part inside an unquoted value: a fresh string parser with single
      quotes on reads it to its closing quote as the last input. */
  method ReadQuoted(cs: Text, i: nat) returns (r: Result<nat>)
    requires i < |cs|
    ensures r == QuotedEnd(cs, i)
  {
    var sp := new StringParser(QuoteOptions);
    var res, e := sp.Last(cs, i);
    QuoteOutcome(cs, i);
    if res.Built? {
      r := Ok(e);
    } else {
      r := Err(res.msg);
    }
  }

  /** One turn of the extractNoQuotesString loop at position i, with the stack of
      expected closing symbols: the characters to copy end at the returned
      position, or the loop stops before i, or it fails. */
  method ExtractTurn(opts: ParserOptions, cs: Text, i: nat, stack: seq<CodeUnit>) returns (m: Move)
    requires i < |cs|
    ensures m == ExtractStep(opts, cs, i, stack)
  {
    var c := cs[i];
    if c == COMMA || c == SEMICOLON || c == LF || c == CR {
      if c == SEMICOLON && !opts.isSemicolonAsComma {
        m := Continue(i + 1, stack);
      } else if stack == [] {
        m := Stop;
      } else {
        m := Continue(i + 1, stack);
      }
    } else if c == LPAREN {
      m := Continue(i + 1, stack + [RPAREN]);
    } else if c == LBRACKET {
      m := Continue(i + 1, stack + [RBRACKET]);
    } else if c == LBRACE {
      m := Continue(i + 1, stack + [RBRACE]);
    } else if c == RPAREN || c == RBRACKET || c == RBRACE {
      if stack == [] {
        m := Stop;
      } else if stack[|stack| - 1] == c {
        m := Continue(i + 1, stack[..|stack| - 1]);
      } else {
        m := Fail(MismatchError);
      }
    } else if c == SQUOTE || c == DQUOTE {
      var q := ReadQuoted(cs, i);
      if q.Err? {
        m := Fail(q.msg);
      } else {
        m := Continue(q.value, stack);
      }
    } else {
      m := Continue(i + 1, stack);
    }
  }

  /** The loop of extractNoQuotesString, with its bracket stack and text buffer. */
  method ExtractNoQuotesString(opts: ParserOptions, cs: Text, pos: nat) returns (r: Result<(Text, nat)>)
    requires pos <= |cs|
    ensures r == ExtractSpec(opts, cs, pos)
  {
    var p0 := SkipBlank(cs, pos);
    var sb: Text := [];
    var stack: seq<CodeUnit> := [];
    var i := p0;
    while i < |cs|
      invariant p0 <= i <= |cs|
      invariant ExtractFrom(opts, cs, p0, i, stack, sb) == ExtractSpec(opts, cs, pos)
      decreases |cs| - i
    {
      var m := ExtractTurn(opts, cs, i, stack);
      ExtractFromStep(opts, cs, p0, i, stack, sb);
      match m {
        case Stop =>
          return Ok((sb, i - p0));
        case Fail(msg) =>
          return Err(msg);
        case Continue(next, stack') =>
          sb := sb + cs[i..next];
          stack := stack';
          i := next;
      }
    }
    if stack != [] {
      return Err(EofError);
    }
    r := Ok((sb, i - p0));
  }

  /** parserForValueNoQuotes: the unquoted text is tried as a number, then as a
      boolean, then as null, each only if it is read whole; otherwise it is a string.
      An error while extracting the text is the error of the dispatch. */
  function ValueNoQuotes(acc: Acceptors, opts: ParserOptions, cs: Text, pos: nat): (r: Result<ParserKind>)
    requires pos <= |cs|
    ensures r.Err? <==> ExtractSpec(opts, cs, pos).Err?
    ensures r.Ok? ==> r.value in {NumberKind, BoolKind, NullKind, StringKind}
    ensures r == Ok(NumberKind) <==> ExtractSpec(opts, cs, pos).Ok? && acc.number(ExtractSpec(opts, cs, pos).value.0)
    ensures r == Ok(BoolKind) ==> !acc.number(ExtractSpec(opts, cs, pos).value.0)
    ensures r == Ok(NullKind) ==>
              !acc.number(ExtractSpec(opts, cs, pos).value.0) && !acc.boolean(ExtractSpec(opts, cs, pos).value.0)
    ensures r == Ok(StringKind) <==> ExtractSpec(opts, cs, pos).Ok?
                                     && var t := ExtractSpec(opts, cs, pos).value.0;
                                        !acc.number(t) && !acc.boolean(t) && !acc.nil(t)
  {
    match ExtractSpec(opts, cs, pos)
    case Err(m) => Err(m)
    case Ok((str, _)) =>
      if acc.number(str) then Ok(NumberKind)
      else if acc.boolean(str) then Ok(BoolKind)
      else if acc.nil(str) then Ok(NullKind)
      else Ok(StringKind)
  }

  /** The first characters that the unquoted-value rule leaves to the other parsers. */
  predicate IsQuotedStart(c: CodeUnit)
  {
    c == LBRACE || c == LBRACKET || c == LPAREN || c == SQUOTE || c == DQUOTE
  }

  /** ParserUtils.parser: skip the blanks and choose a parser by the first character. */
  function Dispatch(acc: Acceptors, opts: ParserOptions, cs: Text, pos: nat): (r: Result<ParserKind>)
    requires pos <= |cs|
    ensures SkipBlank(cs, pos) == |cs| ==> r == Err("empty input string")
  {
    var p := SkipBlank(cs, pos);
    if p == |cs| then Err("empty input string")
    else
      var first := cs[p];
      if opts.isStringValueNoQuotes && !IsQuotedStart(first) then ValueNoQuotes(acc, opts, cs, p)
      else if first == LBRACE then Ok(ObjectKind)
      else if first == LBRACKET then Ok(ArrayKind)
      else if first == SQUOTE then
        if !opts.isStringSingleQuotes then Err("not valid json string: stringSingleQuotes not enabled")
        else Ok(StringKind)
      else if first == LPAREN then
        if !opts.isParenthesesString then Err("not valid json string: parenthesesString not enabled")
        else Ok(StringKind)
      else if first == DQUOTE then Ok(StringKind)
      else if first == LOWER_N then Ok(NullKind)
      else if first == LOWER_T || first == LOWER_F then Ok(BoolKind)
      else if first == MINUS || IsDigit(first) then Ok(NumberKind)
      else Err("not valid json string")
  }
}
