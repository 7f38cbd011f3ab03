/** Characters as the JVM sees them: UTF-16 code units. A JSON `\uXXXX` escape can
    produce any of the 65536 units (lone surrogates included), which a Dafny `char`
    cannot hold, so the JSON side of the model works on code units. */
module Chars {

  type CodeUnit = c: int | 0 <= c < 0x1_0000

  type Text = seq<CodeUnit>

  /** The code units of an ASCII Dafny string, for writing literals such as "@type". */
  function Ascii(s: string): (t: Text)
    requires forall i :: 0 <= i < |s| ==> s[i] as int < 128
    ensures |t| == |s|
    ensures forall i :: 0 <= i < |s| ==> t[i] == s[i] as int
  {
    seq(|s|, i requires 0 <= i < |s| => s[i] as int as CodeUnit)
  }

  const TAB: CodeUnit := 9
  const LF: CodeUnit := 10
  const CR: CodeUnit := 13
  const SPACE: CodeUnit := 32
  const DQUOTE: CodeUnit := 34          // "
  const DOLLAR: CodeUnit := 36          // $
  const SQUOTE: CodeUnit := 39          // '
  const LPAREN: CodeUnit := 40          // (
  const RPAREN: CodeUnit := 41          // )
  const COMMA: CodeUnit := 44           // ,
  const MINUS: CodeUnit := 45           // -
  const SLASH: CodeUnit := 47           // /
  const DIGIT0: CodeUnit := 48          // 0
  const DIGIT9: CodeUnit := 57          // 9
  const COLON: CodeUnit := 58           // :
  const SEMICOLON: CodeUnit := 59       // ;
  const UPPER_A: CodeUnit := 65         // A
  const UPPER_F: CodeUnit := 70         // F
  const UPPER_Z: CodeUnit := 90         // Z
  const LBRACKET: CodeUnit := 91        // [
  const BACKSLASH: CodeUnit := 92       // \
  const RBRACKET: CodeUnit := 93        // ]
  const UNDERSCORE: CodeUnit := 95      // _
  const LOWER_A: CodeUnit := 97         // a
  const LOWER_B: CodeUnit := 98         // b
  const LOWER_F: CodeUnit := 102        // f
  const LOWER_N: CodeUnit := 110        // n
  const LOWER_R: CodeUnit := 114        // r
  const LOWER_T: CodeUnit := 116        // t
  const LOWER_U: CodeUnit := 117        // u
  const LOWER_Z: CodeUnit := 122        // z
  const LBRACE: CodeUnit := 123         // {
  const RBRACE: CodeUnit := 125         // }
  const BACKSPACE: CodeUnit := 8        // \b
  const FORMFEED: CodeUnit := 12        // \f
}
