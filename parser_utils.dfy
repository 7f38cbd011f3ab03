/** The character predicates, option handling and end-of-input check shared by the
    incremental JSON parsers (vjson/parser/ParserUtils.kt), and the outcome of one
    `build` call of an incremental parser (vjson/Parser.kt). */
module ParserUtils {
  import opened Chars
  import opened Wrappers

  /** The parser options the modelled parsers consult. The listener and the
      Java-object mode are left out. */
  datatype ParserOptions = ParserOptions(
    isEnd: bool,                 // the value must be followed only by blanks
    isStringSingleQuotes: bool,  // 'text' is a string
    isParenthesesString: bool,   // (text) is a string
    isStringValueNoQuotes: bool, // unquoted text is a value
    isSemicolonAsComma: bool)    // `;` separates like `,`

  /** What one `build(cs, isComplete)` call yields: a value, `null` (more input is
      needed), a JsonParseException, or a ParserFinishedException. */
  datatype BuildOutcome<+T> = Built(value: T) | Pending | ParseError(msg: string) | Finished

  /** The four insignificant-whitespace characters of section 2 of RFC 8259. */
  const JsonWhitespace: set<CodeUnit> := {SPACE, TAB, LF, CR}

  /** A blank is neither a digit nor a letter. */
  predicate IsWhiteSpace(c: CodeUnit): (r: bool)
    ensures r ==> !IsDigit(c) && !IsLetter(c)
  {
    c == LF || c == CR || c == SPACE || c == TAB
  }

  lemma WhiteSpaceIsRfc8259(c: CodeUnit)
    ensures IsWhiteSpace(c) <==> c in JsonWhitespace
  {
  }

  predicate IsDigit(c: CodeUnit) { DIGIT0 <= c <= DIGIT9 }

  predicate IsLetter(c: CodeUnit) { LOWER_A <= c <= LOWER_Z || UPPER_A <= c <= UPPER_Z }

  /** A name never starts with a digit. */
  predicate IsInitialVarName(c: CodeUnit): (r: bool)
    ensures r ==> !IsDigit(c)
  {
    (LOWER_A <= c <= LOWER_Z) || (UPPER_A <= c <= UPPER_Z) || c == UNDERSCORE || c == DOLLAR
  }

  /** Names are ASCII. */
  predicate IsVarName(c: CodeUnit): (r: bool)
    ensures r ==> c < 0x80
  {
    IsInitialVarName(c) || (DIGIT0 <= c <= DIGIT9)
  }

  /** Initial characters are exactly letters, `_` and `$`; the other characters of a
      name add the digits, so every initial character is a name character. */
  lemma VarNameClasses(c: CodeUnit)
    ensures IsInitialVarName(c) <==> IsLetter(c) || c == UNDERSCORE || c == DOLLAR
    ensures IsVarName(c) <==> IsInitialVarName(c) || IsDigit(c)
    ensures IsInitialVarName(c) ==> IsVarName(c)
    ensures IsDigit(c) ==> IsVarName(c) && !IsInitialVarName(c)
  {
  }

  /** CharStream.skipBlank: the position of the first non-blank unit at or after `pos`. */
  function SkipBlank(cs: Text, pos: nat): (r: nat)
    requires pos <= |cs|
    ensures pos <= r <= |cs|
    ensures forall i :: pos <= i < r ==> IsWhiteSpace(cs[i])
    ensures r < |cs| ==> !IsWhiteSpace(cs[r])
    decreases |cs| - pos
  {
    if pos < |cs| && IsWhiteSpace(cs[pos]) then SkipBlank(cs, pos + 1) else pos
  }

  /** checkEnd: with `isEnd` set, anything but blanks after the value is an error;
      the blanks are consumed. Without it the stream is left alone. */
  function CheckEnd(opts: ParserOptions, cs: Text, pos: nat, kind: string): (r: Result<nat>)
    requires pos <= |cs|
    ensures !opts.isEnd ==> r == Ok(pos)
    ensures opts.isEnd ==> (r.Ok? <==> forall i :: pos <= i < |cs| ==> IsWhiteSpace(cs[i]))
    ensures r.Ok? && opts.isEnd ==> r.value == |cs|
  {
    if opts.isEnd then
      var p := SkipBlank(cs, pos);
      if p < |cs| then Err("input stream contain extra characters other than " + kind)
      else Ok(p)
    else Ok(pos)
  }

  /** subParserOptions: a nested parser never requires the end of input; options that
      already do not require it are passed through unchanged. (The four DEFAULT*
      constants are the general rule's special cases: DEFAULT_NO_END is DEFAULT with
      the end requirement dropped.) */
  function SubParserOptions(opts: ParserOptions): (r: ParserOptions)
    ensures !r.isEnd
    ensures !opts.isEnd ==> r == opts
    ensures r.(isEnd := opts.isEnd) == opts
  {
    if !opts.isEnd then opts else opts.(isEnd := false)
  }
}
