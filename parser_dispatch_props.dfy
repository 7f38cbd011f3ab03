/** Properties of the parser dispatch and of extractNoQuotesString. */
module ParserDispatchProps {
  import opened Chars
  import opened Wrappers
  import opened ParserUtils
  import opened StringParsing
  import ObjectParsing
  import opened ParserDispatch

  /** The value read is exactly the characters read, and reading stops at the end of
      the input, at a separator or at a closing bracket, which is not read. */
  lemma {:induction false} ExtractCopies(opts: ParserOptions, cs: Text, p0: nat, i: nat, stack: seq<CodeUnit>, sb: Text)
    requires p0 <= i <= |cs| && sb == cs[p0..i]
    requires ExtractFrom(opts, cs, p0, i, stack, sb).Ok?
    ensures var (t, n) := ExtractFrom(opts, cs, p0, i, stack, sb).value;
            && t == cs[p0..p0 + n]
            && (p0 + n == |cs| || IsSeparator(opts, cs[p0 + n]) || IsCloser(cs[p0 + n]))
    decreases |cs| - i
  {
    if i < |cs| {
      match ExtractStep(opts, cs, i, stack)
      case Stop =>
      case Fail(_) =>
      case Continue(j, stack') =>
        assert cs[p0..i] + cs[i..j] == cs[p0..j];
        ExtractCopies(opts, cs, p0, j, stack', sb + cs[i..j]);
    }
  }

  /** extractNoQuotesString returns the characters it read after the blanks, and the
      character after them, if any, is a separator or a closing bracket. */
  lemma ExtractSpecCopies(opts: ParserOptions, cs: Text, pos: nat)
    requires pos <= |cs| && ExtractSpec(opts, cs, pos).Ok?
    ensures var p0 := SkipBlank(cs, pos);
            var (t, n) := ExtractSpec(opts, cs, pos).value;
            && p0 + n <= |cs| && t == cs[p0..p0 + n]
            && (p0 + n == |cs| || IsSeparator(opts, cs[p0 + n]) || IsCloser(cs[p0 + n]))
  {
    var p0 := SkipBlank(cs, pos);
    assert cs[p0..p0] == [];
    ExtractCopies(opts, cs, p0, p0, [], []);
  }

  /** Plain characters are copied one by one, at any depth. */
  lemma {:induction false} ExtractPlainRun(opts: ParserOptions, cs: Text, p0: nat, i: nat, k: nat,
                                           stack: seq<CodeUnit>, sb: Text)
    requires p0 <= i <= k <= |cs|
    requires forall j :: i <= j < k ==> IsPlain(opts, cs[j])
    ensures ExtractFrom(opts, cs, p0, i, stack, sb) == ExtractFrom(opts, cs, p0, k, stack, sb + cs[i..k])
    decreases k - i
  {
    if i == k {
      assert sb + cs[i..k] == sb;
    } else {
      assert sb + cs[i..i + 1] + cs[i + 1..k] == sb + cs[i..k];
      ExtractPlainRun(opts, cs, p0, i + 1, k, stack, sb + cs[i..i + 1]);
    }
  }

  /** Inside brackets, separators are copied like plain characters. */
  lemma {:induction false} ExtractInnerRun(opts: ParserOptions, cs: Text, p0: nat, i: nat, k: nat,
                                           stack: seq<CodeUnit>, sb: Text)
    requires p0 <= i <= k <= |cs| && stack != []
    requires forall j :: i <= j < k ==> IsPlain(opts, cs[j]) || IsSeparator(opts, cs[j])
    ensures ExtractFrom(opts, cs, p0, i, stack, sb) == ExtractFrom(opts, cs, p0, k, stack, sb + cs[i..k])
    decreases k - i
  {
    if i == k {
      assert sb + cs[i..k] == sb;
    } else {
      assert sb + cs[i..i + 1] + cs[i + 1..k] == sb + cs[i..k];
      ExtractInnerRun(opts, cs, p0, i + 1, k, stack, sb + cs[i..i + 1]);
    }
  }

  /** An unquoted value of plain characters is read up to the first separator or
      closing bracket, or to the end of the input. */
  lemma ExtractPlain(opts: ParserOptions, cs: Text, pos: nat, k: nat)
    requires pos <= |cs| && SkipBlank(cs, pos) <= k <= |cs|
    requires forall j :: SkipBlank(cs, pos) <= j < k ==> IsPlain(opts, cs[j])
    requires k == |cs| || IsSeparator(opts, cs[k]) || IsCloser(cs[k])
    ensures ExtractSpec(opts, cs, pos) == Ok((cs[SkipBlank(cs, pos)..k], k - SkipBlank(cs, pos)))
  {
    var p0 := SkipBlank(cs, pos);
    ExtractPlainRun(opts, cs, p0, p0, k, [], []);
    assert [] + cs[p0..k] == cs[p0..k];
  }

  /** An opening bracket, content without brackets or quotes (separators included)
      and the matching closing bracket are copied whole, and reading goes on at
      depth 0. */
  lemma ExtractBracketed(opts: ParserOptions, cs: Text, p0: nat, i: nat, k: nat, sb: Text)
    requires p0 <= i < k < |cs| && IsOpener(cs[i]) && cs[k] == Closer(cs[i])
    requires forall j :: i < j < k ==> IsPlain(opts, cs[j]) || IsSeparator(opts, cs[j])
    ensures ExtractFrom(opts, cs, p0, i, [], sb) == ExtractFrom(opts, cs, p0, k + 1, [], sb + cs[i..k + 1])
  {
    var st: seq<CodeUnit> := [] + [Closer(cs[i])];
    var sb1 := sb + cs[i..i + 1];
    var sb2 := sb1 + cs[i + 1..k];
    assert ExtractStep(opts, cs, i, []) == Continue(i + 1, st);
    ExtractFromStep(opts, cs, p0, i, [], sb);
    ExtractInnerRun(opts, cs, p0, i + 1, k, st, sb1);
    assert st[..0] == [];
    assert ExtractStep(opts, cs, k, st) == Continue(k + 1, []);
    ExtractFromStep(opts, cs, p0, k, st, sb2);
    SlicesJoin(sb, cs, i, k);
  }

  /** Copying the opening bracket, the content and the closing bracket one after the
      other copies the whole bracketed text. */
  lemma SlicesJoin(sb: Text, cs: Text, i: nat, k: nat)
    requires i < k < |cs|
    ensures sb + cs[i..i + 1] + cs[i + 1..k] + cs[k..k + 1] == sb + cs[i..k + 1]
  {
    assert cs[i..i + 1] + cs[i + 1..k] + cs[k..k + 1] == cs[i..k + 1];
  }

  /** An opening bracket whose plain content runs to the end of the input is an
      error: the bracket is never closed. */
  lemma ExtractUnclosed(opts: ParserOptions, cs: Text, pos: nat)
    requires pos <= |cs| && SkipBlank(cs, pos) < |cs| && IsOpener(cs[SkipBlank(cs, pos)])
    requires forall j :: SkipBlank(cs, pos) < j < |cs| ==> IsPlain(opts, cs[j])
    ensures ExtractSpec(opts, cs, pos) == Err(EofError)
  {
    var p0 := SkipBlank(cs, pos);
    var c := cs[p0];
    var st: seq<CodeUnit> := [] + [Closer(c)];
    assert ExtractSpec(opts, cs, pos) == ExtractFrom(opts, cs, p0, p0 + 1, st, [] + cs[p0..p0 + 1]);
    ExtractPlainRun(opts, cs, p0, p0 + 1, |cs|, st, [] + cs[p0..p0 + 1]);
  }

  /** An opening bracket followed, after plain characters, by a closing bracket of
      another kind is an error. */
  lemma ExtractMismatch(opts: ParserOptions, cs: Text, pos: nat, k: nat)
    requires pos <= |cs| && SkipBlank(cs, pos) < k < |cs| && IsOpener(cs[SkipBlank(cs, pos)])
    requires forall j :: SkipBlank(cs, pos) < j < k ==> IsPlain(opts, cs[j])
    requires IsCloser(cs[k]) && cs[k] != Closer(cs[SkipBlank(cs, pos)])
    ensures ExtractSpec(opts, cs, pos) == Err(MismatchError)
  {
    var p0 := SkipBlank(cs, pos);
    var c := cs[p0];
    var st: seq<CodeUnit> := [] + [Closer(c)];
    assert ExtractSpec(opts, cs, pos) == ExtractFrom(opts, cs, p0, p0 + 1, st, [] + cs[p0..p0 + 1]);
    ExtractPlainRun(opts, cs, p0, p0 + 1, k, st, [] + cs[p0..p0 + 1]);
  }

  lemma SkipBlankIdempotent(cs: Text, pos: nat)
    requires pos <= |cs|
    ensures SkipBlank(cs, SkipBlank(cs, pos)) == SkipBlank(cs, pos)
  {
    var p := SkipBlank(cs, pos);
    if p < |cs| {
      assert !IsWhiteSpace(cs[p]);
    }
  }

  /** The dispatch only depends on the input from its first non-blank character. */
  lemma DispatchSkipsBlanks(acc: Acceptors, opts: ParserOptions, cs: Text, pos: nat)
    requires pos <= |cs|
    ensures Dispatch(acc, opts, cs, pos) == Dispatch(acc, opts, cs, SkipBlank(cs, pos))
  {
    SkipBlankIdempotent(cs, pos);
    var p := SkipBlank(cs, pos);
    if p < |cs| && opts.isStringValueNoQuotes && !IsQuotedStart(cs[p]) {
      SkipBlankIdempotent(cs, p);
    }
  }

  /** The object parser is chosen exactly when the object parser accepts the first
      non-blank character as its first step. */
  lemma DispatchObject(acc: Acceptors, opts: ParserOptions, cs: Text, pos: nat)
    requires pos <= |cs|
    ensures Dispatch(acc, opts, cs, pos) == Ok(ObjectKind) <==>
              SkipBlank(cs, pos) < |cs| && ObjectParsing.OStep(opts, ObjectParsing.Initial, cs[SkipBlank(cs, pos)]).Ok?
  {
    var p := SkipBlank(cs, pos);
    if p < |cs| {
      assert ObjectParsing.IdleStep(ObjectParsing.Initial, cs[p]).Move? <==> cs[p] == LBRACE;
    }
  }

  /** Without unquoted values, the string parser is chosen exactly when the string
      parser accepts the first non-blank character as an opening delimiter. */
  lemma DispatchString(acc: Acceptors, opts: ParserOptions, cs: Text, pos: nat)
    requires pos <= |cs| && !opts.isStringValueNoQuotes
    ensures Dispatch(acc, opts, cs, pos) == Ok(StringKind) <==>
              SkipBlank(cs, pos) < |cs| && Step(opts, Fresh, cs[SkipBlank(cs, pos)]).Ok?
  {
  }

  /** Without unquoted values, a number starts with `-` or a digit, a boolean with
      `t` or `f`, null with `n`, an array with `[`. */
  lemma DispatchScalars(acc: Acceptors, opts: ParserOptions, cs: Text, pos: nat)
    requires pos <= |cs| && !opts.isStringValueNoQuotes && SkipBlank(cs, pos) < |cs|
    ensures var c := cs[SkipBlank(cs, pos)];
            && (Dispatch(acc, opts, cs, pos) == Ok(NumberKind) <==> c == MINUS || IsDigit(c))
            && (Dispatch(acc, opts, cs, pos) == Ok(BoolKind) <==> c == LOWER_T || c == LOWER_F)
            && (Dispatch(acc, opts, cs, pos) == Ok(NullKind) <==> c == LOWER_N)
            && (Dispatch(acc, opts, cs, pos) == Ok(ArrayKind) <==> c == LBRACKET)
  {
  }

  /** With unquoted values on, a first character outside `{ [ ( ' "` always goes
      through the unquoted-value rule, so it is never the "not valid json" error. */
  lemma DispatchNoQuotes(acc: Acceptors, opts: ParserOptions, cs: Text, pos: nat)
    requires pos <= |cs| && opts.isStringValueNoQuotes && SkipBlank(cs, pos) < |cs|
    requires !IsQuotedStart(cs[SkipBlank(cs, pos)])
    ensures Dispatch(acc, opts, cs, pos).Err? <==> ExtractSpec(opts, cs, SkipBlank(cs, pos)).Err?
    ensures Dispatch(acc, opts, cs, pos).Ok? ==> Dispatch(acc, opts, cs, pos).value != ObjectKind
  {
  }
}
