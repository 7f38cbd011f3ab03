/** Tokens of the preprocessor (vpreprocessor/token/Token.kt): plain text, a macro
    whose text is classified once, and the end-of-file token. */
module Tokens {

  datatype MacroCategory = Keyword | Var | BracketLeft | BracketRight | DoubleBracketLeft | DoubleBracketRight

  /** Plain and Macro are data classes, so two of them are equal exactly when their
      texts are; every EOFToken equals every other one. */
  datatype Token = Plain(text: string) | Macro(text: string) | EOFToken

  const Keywords: set<string> := {"ifdef", "ifndef", "else"}

  /** Macro.category: the keywords, the single and double brackets, and a variable
      for every other text. */
  function Category(text: string): (r: MacroCategory)
    ensures r == Keyword <==> text in Keywords
    ensures r == DoubleBracketLeft <==> text == "{{"
    ensures r == DoubleBracketRight <==> text == "}}"
    ensures r == BracketLeft <==> text == "{"
    ensures r == BracketRight <==> text == "}"
  {
    if text == "ifdef" || text == "ifndef" || text == "else" then Keyword
    else if text == "{{" then DoubleBracketLeft
    else if text == "}}" then DoubleBracketRight
    else if text == "{" then BracketLeft
    else if text == "}" then BracketRight
    else Var
  }

  /** Every text that is neither a keyword nor a bracket is a variable. */
  lemma CategoryVar(text: string)
    ensures Category(text) == Var <==> text !in Keywords + {"{{", "}}", "{", "}"}
  {
  }

  /** The bracket categories belong to one- and two-character texts only, so a
      variable or keyword of another length is never taken for a bracket. */
  lemma CategoryBracketLengths(text: string)
    ensures Category(text) in {BracketLeft, BracketRight} ==> |text| == 1
    ensures Category(text) in {DoubleBracketLeft, DoubleBracketRight} ==> |text| == 2
    ensures |text| > 6 ==> Category(text) == Var
  {
  }

  /** EOFToken.hashCode: the same for every end-of-file token. */
  function HashCode(t: Token): (h: int)
    requires t.EOFToken?
    ensures h == 0
    ensures forall u: Token :: u.EOFToken? ==> u == t && HashCode(u) == h
  {
    0
  }
}
