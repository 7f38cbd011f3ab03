/** The indentation and top-level state used while turning a program back into
    script text (vjson/pl/ScriptifyContext.kt), and the checks that decide whether a
    string may be written without quotes. */
module Scriptify {

  /** n spaces; none for a count that is not positive, as a loop from 0 until n. */
  function Spaces(n: int): (r: string)
    ensures |r| == if n < 0 then 0 else n
    ensures forall i :: 0 <= i < |r| ==> r[i] == ' '
    decreases n
  {
    if n <= 0 then [] else Spaces(n - 1) + [' ']
  }

  /** A growable text buffer that the indentation is appended to. */
  class StringBuilder {
    var content: string

    constructor()
      ensures content == []
    {
      content := [];
    }
  }

  class ScriptifyContext {
    const indent: int
    var currentIndent: int
    var isTopLevel: bool

    /** With a non-negative step the indentation never goes below zero. */
    ghost predicate Valid()
      reads this
    {
      indent >= 0 ==> currentIndent >= 0
    }

    constructor(indent: int)
      ensures Valid()
      ensures this.indent == indent && currentIndent == 0 && isTopLevel
    {
      this.indent := indent;
      currentIndent := 0;
      isTopLevel := true;
    }

    /** Once cleared, the top-level flag stays false: no method sets it again. */
    method UnsetTopLevel()
      requires Valid()
      modifies this
      ensures Valid()
      ensures !isTopLevel && currentIndent == old(currentIndent)
    {
      isTopLevel := false;
    }

    method IncreaseIndent()
      requires Valid()
      modifies this
      ensures Valid()
      ensures currentIndent == old(currentIndent) + indent && isTopLevel == old(isTopLevel)
    {
      currentIndent := currentIndent + indent;
    }

    /** Fails (the source throws IllegalStateException) and changes nothing when the
        indentation would become negative; otherwise steps back by `indent`. */
    method DecreaseIndent() returns (ok: bool)
      requires Valid()
      modifies this
      ensures Valid()
      ensures ok <==> old(currentIndent) - indent >= 0
      ensures currentIndent == if ok then old(currentIndent) - indent else old(currentIndent)
      ensures currentIndent >= 0 || !ok
      ensures isTopLevel == old(isTopLevel)
    {
      if currentIndent - indent < 0 {
        return false;
      }
      currentIndent := currentIndent - indent;
      ok := true;
    }

    /** Appends one space per unit of the current indentation. */
    method AppendIndent(builder: StringBuilder)
      modifies builder
      ensures builder.content == old(builder.content) + Spaces(currentIndent)
    {
      var i := 0;
      while i < currentIndent
        invariant 0 <= i && (currentIndent >= 0 ==> i <= currentIndent) && (currentIndent < 0 ==> i == 0)
        invariant builder.content == old(builder.content) + Spaces(i)
      {
        builder.content := builder.content + [' '];
        i := i + 1;
      }
    }
  }

  /** A text is blank when every character is whitespace (the empty text included). */
  predicate IsBlank(ws: char -> bool, s: string)
  {
    forall i :: 0 <= i < |s| ==> ws(s[i])
  }

  /** s without its leading whitespace. */
  function TrimStart(ws: char -> bool, s: string): (r: string)
    ensures |r| <= |s| && r == s[|s| - |r|..]
    ensures r == [] || !ws(r[0])
    ensures forall i :: 0 <= i < |s| - |r| ==> ws(s[i])
  {
    if s == [] || !ws(s[0]) then s
    else
      var r := TrimStart(ws, s[1..]);
      assert s[1..][|s| - 1 - |r|..] == s[|s| - |r|..];
      r
  }

  /** s without its trailing whitespace. */
  function TrimEnd(ws: char -> bool, s: string): (r: string)
    ensures |r| <= |s| && r == s[..|r|]
    ensures r == [] || !ws(r[|r| - 1])
    ensures forall i :: |r| <= i < |s| ==> ws(s[i])
  {
    if s == [] || !ws(s[|s| - 1]) then s
    else
      var r := TrimEnd(ws, s[..|s| - 1]);
      assert s[..|s| - 1][..|r|] == s[..|r|];
      r
  }

  /** String.trim: both ends stripped of whitespace. */
  function Trim(ws: char -> bool, s: string): (r: string)
    ensures |r| <= |s|
  {
    TrimEnd(ws, TrimStart(ws, s))
  }

  /** A text with no whitespace at either end is its own trim. */
  lemma TrimKeeps(ws: char -> bool, s: string)
    requires s != [] && !ws(s[0]) && !ws(s[|s| - 1])
    ensures Trim(ws, s) == s
  {
    assert TrimStart(ws, s) == s;
    assert TrimEnd(ws, s) == s;
  }

  /** A non-empty text that is its own trim has no whitespace at either end. */
  lemma TrimKept(ws: char -> bool, s: string)
    requires s != [] && Trim(ws, s) == s
    ensures !ws(s[0]) && !ws(s[|s| - 1])
  {
    var t := TrimStart(ws, s);
    assert |t| == |s|;
    assert t == s;
    var u := TrimEnd(ws, t);
    assert u == s;
  }

  /** Trimming leaves a text unchanged exactly when it is empty or neither starts nor
      ends with whitespace. */
  lemma TrimUnchanged(ws: char -> bool, s: string)
    ensures Trim(ws, s) == s <==> s == [] || (!ws(s[0]) && !ws(s[|s| - 1]))
  {
    if s == [] {
      assert TrimStart(ws, s) == [];
    } else if !ws(s[0]) && !ws(s[|s| - 1]) {
      TrimKeeps(ws, s);
    } else if Trim(ws, s) == s {
      TrimKept(ws, s);
    }
  }

  /** The checks stringNoQuotes makes before asking the parser (`parses`, which stands
      for checkStringNoQuotesWithParser, not part of this model): not blank, and not
      changed by trimming. */
  function StringNoQuotes(ws: char -> bool, parses: string -> bool, s: string): (r: bool)
    ensures r ==> parses(s)
  {
    if IsBlank(ws, s) then false
    else if Trim(ws, s) != s then false
    else parses(s)
  }

  /** A blank text, or one that starts or ends with whitespace, is always quoted. */
  lemma NoQuotesNeverBlankOrPadded(ws: char -> bool, parses: string -> bool, s: string)
    ensures StringNoQuotes(ws, parses, s) ==> |s| > 0 && !ws(s[0]) && !ws(s[|s| - 1])
    ensures StringNoQuotes(ws, parses, s) <==>
              (|s| > 0 && !ws(s[0]) && !ws(s[|s| - 1]) && parses(s))
  {
    TrimUnchanged(ws, s);
    if |s| > 0 && !ws(s[0]) {
      assert !IsBlank(ws, s);
    }
  }
}
