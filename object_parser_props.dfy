/** Properties of the object parser specification: input may be split anywhere,
    blanks between tokens are insignificant, the first non-blank unit must open the
    object, `{}` is the empty object, and the serialised form of any member list
    (duplicate keys included) is read back as exactly that list, in order. */
module ObjectParserProps {
  import opened Chars
  import opened Wrappers
  import opened ParserUtils
  import opened StringParsing
  import opened StringParserProps
  import opened ObjectParsing

  /** Two consecutive pieces of a slice. */
  lemma SliceSplit(cs: Text, p: nat, a: Text, b: Text)
    requires p + |a| + |b| <= |cs| && cs[p..p + |a| + |b|] == a + b
    ensures cs[p..p + |a|] == a && cs[p + |a|..p + |a| + |b|] == b
  {
    var whole := cs[p..p + |a| + |b|];
    var left, right := cs[p..p + |a|], cs[p + |a|..p + |a| + |b|];
    assert forall i | 0 <= i < |a| :: left[i] == whole[i];
    assert forall i | 0 <= i < |b| :: right[i] == whole[|a| + i];
  }

  /** Three consecutive pieces of a slice, the middle one a single unit. */
  lemma SliceSplit3(cs: Text, p: nat, a: Text, u: CodeUnit, b: Text)
    requires p + |a| + 1 + |b| <= |cs| && cs[p..p + |a| + 1 + |b|] == a + [u] + b
    ensures cs[p..p + |a|] == a && cs[p + |a|] == u && cs[p + |a| + 1..p + |a| + 1 + |b|] == b
  {
    SliceSplit(cs, p, a + [u], b);
    SliceSplit(cs, p, a, [u]);
    assert cs[p + |a|] == cs[p + |a|..p + |a| + 1][0];
  }

  // ---------------------------------------------------------------------------
  // Resumability

  /** Running out of input in the middle leaves a state from which the rest of the
      input is read as if it had never been split. */
  lemma {:induction false} OScanPrefix(o: ParserOptions, s: OState, a: Text, b: Text, p: nat)
    requires OInv(s) && p <= |a|
    requires OScan(o, s, a, p).0.Ok? && OScan(o, s, a, p).1 == |a|
    requires OScan(o, s, a, p).0.value.state != 6
    ensures OScan(o, s, a + b, p) == OScan(o, OScan(o, s, a, p).0.value, a + b, |a|)
    decreases |a| - p
  {
    if p < |a| {
      assert (a + b)[p] == a[p];
      match OStep(o, s, a[p])
      case Err(m) =>
      case Ok(s') => OScanPrefix(o, s', a, b, p + 1);
    }
  }

  lemma {:induction false} OScanShift(o: ParserOptions, s: OState, a: Text, b: Text, i: nat)
    requires OInv(s) && i <= |b|
    ensures OScan(o, s, a + b, |a| + i) == (OScan(o, s, b, i).0, OScan(o, s, b, i).1 + |a|)
    decreases |b| - i
  {
    if i < |b| && s.state != 6 {
      assert (a + b)[|a| + i] == b[i];
      match OStep(o, s, b[i])
      case Err(m) =>
      case Ok(s') => OScanShift(o, s', a, b, i + 1);
    }
  }

  /** Resumability: when a call answers "not yet", it has consumed its whole input,
      and the next call on the rest answers what one call on the whole would have. */
  lemma ObjectResume(o: ParserOptions, s: OState, a: Text, b: Text, isComplete: bool)
    requires OInv(s) && s.state != 7
    requires OTrySpec(o, s, a, 0, false).0 == TryOk(false)
    ensures OTrySpec(o, s, a, 0, false).2 == |a|
    ensures var s1 := OTrySpec(o, s, a, 0, false).1;
            var whole := OTrySpec(o, s, a + b, 0, isComplete);
            var rest := OTrySpec(o, s1, b, 0, isComplete);
            && whole.0 == rest.0
            && whole.2 == rest.2 + |a|
            && (!whole.0.TryErr? ==> whole.1 == rest.1)
  {
    var s1 := OScan(o, s, a, 0).0.value;
    OScanPrefix(o, s, a, b, 0);
    OScanShift(o, s1, a, b, 0);
    assert s1.state != 7;
  }

  // ---------------------------------------------------------------------------
  // Blanks and the opening brace

  /** Between tokens (no sub-parser in progress) blanks are skipped. */
  lemma {:induction false} OScanBlanks(o: ParserOptions, s: OState, cs: Text, p: nat)
    requires OInv(s) && s.keyParser.None? && s.valueParser.None? && 0 <= s.state <= 5 && p <= |cs|
    ensures OScan(o, s, cs, p) == OScan(o, s, cs, SkipBlank(cs, p))
    decreases |cs| - p
  {
    if p < |cs| && IsWhiteSpace(cs[p]) {
      OScanBlanks(o, s, cs, p + 1);
    }
  }

  /** Input whose first non-blank unit is not `{` is not an object. */
  lemma NotAnObject(o: ParserOptions, cs: Text, isComplete: bool)
    requires SkipBlank(cs, 0) < |cs| && cs[SkipBlank(cs, 0)] != LBRACE
    ensures OTrySpec(o, Initial, cs, 0, isComplete).0.TryErr?
    ensures OBuildSpec(o, Initial, cs, 0, isComplete).0.ParseError?
  {
    OScanBlanks(o, Initial, cs, 0);
  }

  /** `{`, blanks, `}` is the empty object. */
  lemma EmptyObject(o: ParserOptions, blanks: Text, rest: Text, isComplete: bool)
    requires !o.isEnd && forall i :: 0 <= i < |blanks| ==> IsWhiteSpace(blanks[i])
    ensures var cs := [LBRACE] + blanks + [RBRACE] + rest;
            OBuildSpec(o, Initial, cs, 0, isComplete).0 == Built([])
            && OBuildSpec(o, Initial, cs, 0, isComplete).2 == |blanks| + 2
  {
    var cs := [LBRACE] + blanks + [RBRACE] + rest;
    var s1 := Initial.(state := 1);
    assert OStep(o, Initial, cs[0]) == Ok(s1);
    assert SkipBlank(cs, 1) == |blanks| + 1 by {
      SkipBlankOver(cs, 1, |blanks| + 1);
    }
    OScanOne(o, Initial, cs, 0, s1);
    OScanBlanks(o, s1, cs, 1);
    assert cs[|blanks| + 1] == RBRACE;
    OScanOne(o, s1, cs, |blanks| + 1, s1.(state := 6));
  }

  /** skipBlank stops at the first non-blank unit. */
  lemma {:induction false} SkipBlankOver(cs: Text, p: nat, q: nat)
    requires p <= q < |cs| && !IsWhiteSpace(cs[q])
    requires forall i :: p <= i < q ==> IsWhiteSpace(cs[i])
    ensures SkipBlank(cs, p) == q
    decreases q - p
  {
    if p < q {
      SkipBlankOver(cs, p + 1, q);
    }
  }

  // ---------------------------------------------------------------------------
  // Round trip

  /** `"key":"value"`, the way a JSON encoder writes a member. */
  function Member(e: Entry): Text
  {
    Quote(DQUOTE, e.key) + [COLON] + Quote(DQUOTE, e.value)
  }

  /** The members, separated by `,`. */
  function Members(es: seq<Entry>): Text
  {
    if |es| == 0 then []
    else if |es| == 1 then Member(es[0])
    else Member(es[0]) + [COMMA] + Members(es[1..])
  }

  /** The text a JSON encoder writes for an object with these members. */
  function Serialize(es: seq<Entry>): Text
  {
    [LBRACE] + Members(es) + [RBRACE]
  }

  /** The sub-parser after it has read an opening `"`. */
  const Opened: SState := Fresh.(state := 1, beginning := DQUOTE)

  /** At p a quoted string starts that a sub-parser reads as x, stopping at end. */
  ghost predicate QuotedAt(o: ParserOptions, cs: Text, p: nat, x: Text, end: nat)
  {
    && p < |cs| && cs[p] == DQUOTE
    && var (r, e) := Scan(SubParserOptions(o), Opened, cs, p + 1);
       r.Ok? && r.value.state == 7 && r.value.builder == x && e == end
  }

  /** At p a member e starts: its key up to k, `:`, and its value up to end. */
  ghost predicate MemberAt(o: ParserOptions, cs: Text, p: nat, e: Entry, k: nat, end: nat)
  {
    QuotedAt(o, cs, p, e.key, k) && k < |cs| && cs[k] == COLON && QuotedAt(o, cs, k + 1, e.value, end)
  }

  /** Where the key of a member written at p ends. */
  function KeyEnd(p: nat, e: Entry): nat
  {
    p + |Quote(DQUOTE, e.key)|
  }

  /** Where a member written at p ends. */
  function MemberEnd(p: nat, e: Entry): nat
  {
    KeyEnd(p, e) + 1 + |Quote(DQUOTE, e.value)|
  }

  /** At p the members es start, separated by `,`, and the last one stops at end. */
  ghost predicate MembersAt(o: ParserOptions, cs: Text, p: nat, es: seq<Entry>, end: nat)
    decreases |es|
  {
    && |es| > 0
    && MemberAt(o, cs, p, es[0], KeyEnd(p, es[0]), MemberEnd(p, es[0]))
    && if |es| == 1 then end == MemberEnd(p, es[0])
       else
         && MemberEnd(p, es[0]) < |cs| && cs[MemberEnd(p, es[0])] == COMMA
         && MembersAt(o, cs, MemberEnd(p, es[0]) + 1, es[1..], end)
  }

  /** A quoted key or value, read by a sub-parser started on its opening quote. */
  lemma SubQuote(o: ParserOptions, x: Text, cs: Text, p: nat)
    requires p + |Quote(DQUOTE, x)| <= |cs| && cs[p..p + |Quote(DQUOTE, x)|] == Quote(DQUOTE, x)
    ensures QuotedAt(o, cs, p, x, p + |Quote(DQUOTE, x)|)
  {
    var qx := Quote(DQUOTE, x);
    assert cs[p] == cs[p..p + |qx|][0] == DQUOTE;
    QuoteScan(SubParserOptions(o), Fresh, DQUOTE, x, cs, p);
    assert Step(SubParserOptions(o), Fresh, DQUOTE) == Ok(Opened);
    assert [] + x == x;
  }

  /** A key parser that closes its string hands over to "expecting `:`". */
  lemma OScanKeyDone(o: ParserOptions, s: OState, cs: Text, p: nat)
    requires OInv(s) && s.keyParser.Some? && p <= |cs|
    requires var r := Scan(SubParserOptions(o), s.keyParser.value, cs, p).0; r.Ok? && r.value.state == 7
    ensures var (r, e) := Scan(SubParserOptions(o), s.keyParser.value, cs, p);
            OScan(o, s, cs, p) == OScan(o, KeyDone(s, r.value.builder), cs, e)
  {
    OScanKey(o, s, cs, p);
  }

  /** A value parser that closes its string appends the member. */
  lemma OScanValueDone(o: ParserOptions, s: OState, cs: Text, p: nat)
    requires OInv(s) && s.valueParser.Some? && p <= |cs|
    requires var r := Scan(SubParserOptions(o), s.valueParser.value, cs, p).0; r.Ok? && r.value.state == 7
    ensures var (r, e) := Scan(SubParserOptions(o), s.valueParser.value, cs, p);
            OScan(o, s, cs, p) == OScan(o, ValueDone(s, r.value.builder), cs, e)
  {
    OScanValue(o, s, cs, p);
  }

  /** A quoted key moves the parser from "expecting a key" to "expecting `:`". */
  lemma KeyScan(o: ParserOptions, s: OState, x: Text, cs: Text, p: nat, end: nat)
    requires OInv(s) && (s.state == 1 || s.state == 5) && s.keyParser.None? && s.valueParser.None?
    requires QuotedAt(o, cs, p, x, end)
    ensures end <= |cs| && OScan(o, s, cs, p) == OScan(o, s.(state := 2, key := Some(x)), cs, end)
  {
    var s1 := s.(keyParser := Some(Opened));
    assert OStep(o, s, cs[p]) == Ok(s1);
    OScanOne(o, s, cs, p, s1);
    OScanKeyDone(o, s1, cs, p + 1);
    assert KeyDone(s1, x) == s.(state := 2, key := Some(x));
  }

  /** A quoted value moves the parser from "expecting a value" to "expecting `,` or
      `}`", appending the member. */
  lemma ValueScan(o: ParserOptions, s: OState, x: Text, cs: Text, p: nat, end: nat)
    requires OInv(s) && s.state == 3 && s.keyParser.None? && s.valueParser.None?
    requires QuotedAt(o, cs, p, x, end)
    ensures end <= |cs|
    ensures OScan(o, s, cs, p) ==
            OScan(o, s.(state := 4, entries := s.entries + [Entry(s.key.value, x)], key := None), cs, end)
  {
    var s1 := s.(valueParser := Some(Opened));
    assert OStep(o, s, cs[p]) == Ok(s1);
    OScanOne(o, s, cs, p, s1);
    OScanValueDone(o, s1, cs, p + 1);
    assert ValueDone(s1, x) == s.(state := 4, entries := s.entries + [Entry(s.key.value, x)], key := None);
  }

  /** A quoted key and its `:` move the parser from "expecting a key" to
      "expecting a value". */
  lemma KeyColonScan(o: ParserOptions, s: OState, x: Text, cs: Text, p: nat, k: nat)
    requires OInv(s) && (s.state == 1 || s.state == 5) && s.keyParser.None? && s.valueParser.None?
    requires QuotedAt(o, cs, p, x, k) && k < |cs| && cs[k] == COLON
    ensures OScan(o, s, cs, p) == OScan(o, s.(state := 3, key := Some(x)), cs, k + 1)
  {
    var s2 := s.(state := 2, key := Some(x));
    KeyScan(o, s, x, cs, p, k);
    OScanOne(o, s2, cs, k, s2.(state := 3));
  }

  /** One member moves the parser from "expecting a key" to "expecting `,` or `}`",
      appending the member. */
  lemma MemberScan(o: ParserOptions, s: OState, e: Entry, cs: Text, p: nat, k: nat, end: nat)
    requires OInv(s) && (s.state == 1 || s.state == 5) && s.keyParser.None? && s.valueParser.None?
    requires MemberAt(o, cs, p, e, k, end)
    ensures end <= |cs|
    ensures OScan(o, s, cs, p) == OScan(o, s.(state := 4, entries := s.entries + [e], key := None), cs, end)
  {
    var s3 := s.(state := 3, key := Some(e.key));
    KeyColonScan(o, s, e.key, cs, p, k);
    ValueScan(o, s3, e.value, cs, k + 1, end);
    assert s3.(state := 4, entries := s3.entries + [Entry(s3.key.value, e.value)], key := None)
        == s.(state := 4, entries := s.entries + [e], key := None);
  }

  /** The first member of a member list. */
  lemma MembersAtHead(o: ParserOptions, cs: Text, p: nat, es: seq<Entry>, end: nat)
    requires MembersAt(o, cs, p, es, end)
    ensures |es| > 0 && MemberAt(o, cs, p, es[0], KeyEnd(p, es[0]), MemberEnd(p, es[0]))
  {
  }

  /** What follows the first member of a longer member list. */
  lemma MembersAtTail(o: ParserOptions, cs: Text, p: nat, es: seq<Entry>, end: nat)
    requires |es| > 1 && MembersAt(o, cs, p, es, end)
    ensures MemberEnd(p, es[0]) < |cs| && cs[MemberEnd(p, es[0])] == COMMA
    ensures MembersAt(o, cs, MemberEnd(p, es[0]) + 1, es[1..], end)
  {
  }

  lemma AppendFirst(xs: seq<Entry>, es: seq<Entry>)
    requires |es| > 0
    ensures xs + [es[0]] + es[1..] == xs + es
  {
    assert [es[0]] + es[1..] == es;
  }

  /** The first member and the `,` after it move the parser from "expecting a
      key" to "expecting a key" again, with the member appended. */
  lemma MemberCommaScan(o: ParserOptions, s: OState, e: Entry, cs: Text, p: nat, m: nat)
    requires OInv(s) && (s.state == 1 || s.state == 5) && s.keyParser.None? && s.valueParser.None?
    requires MemberAt(o, cs, p, e, KeyEnd(p, e), m) && m < |cs| && cs[m] == COMMA
    ensures OScan(o, s, cs, p) == OScan(o, s.(state := 5, entries := s.entries + [e], key := None), cs, m + 1)
  {
    var s1 := s.(state := 4, entries := s.entries + [e], key := None);
    MemberScan(o, s, e, cs, p, KeyEnd(p, e), m);
    OScanOne(o, s1, cs, m, s1.(state := 5));
  }

  /** A non-empty member list moves the parser from "expecting a key" to "expecting
      `,` or `}`", appending the members in order. */
  lemma {:induction false} MembersScan(o: ParserOptions, s: OState, es: seq<Entry>, cs: Text, p: nat, end: nat)
    requires OInv(s) && (s.state == 1 || s.state == 5) && s.keyParser.None? && s.valueParser.None?
    requires MembersAt(o, cs, p, es, end)
    ensures end <= |cs|
    ensures OScan(o, s, cs, p) == OScan(o, s.(state := 4, entries := s.entries + es, key := None), cs, end)
    decreases |es|
  {
    var m := MemberEnd(p, es[0]);
    MembersAtHead(o, cs, p, es, end);
    if |es| == 1 {
      assert end == m;
      MemberScan(o, s, es[0], cs, p, KeyEnd(p, es[0]), end);
      assert s.entries + es == s.entries + [es[0]];
    } else {
      var s5 := s.(state := 5, entries := s.entries + [es[0]], key := None);
      MembersAtTail(o, cs, p, es, end);
      MemberCommaScan(o, s, es[0], cs, p, m);
      MembersScan(o, s5, es[1..], cs, m + 1, end);
      AppendFirst(s.entries, es);
      assert s5.(state := 4, entries := s5.entries + es[1..], key := None)
          == s.(state := 4, entries := s.entries + es, key := None);
    }
  }

  /** The pieces of a member written from position p to end. */
  lemma MemberText(o: ParserOptions, e: Entry, cs: Text, p: nat, end: nat)
    requires end == p + |Member(e)| <= |cs| && cs[p..end] == Member(e)
    ensures end == MemberEnd(p, e)
    ensures MemberAt(o, cs, p, e, KeyEnd(p, e), end)
  {
    var qk, qv := Quote(DQUOTE, e.key), Quote(DQUOTE, e.value);
    SliceSplit3(cs, p, qk, COLON, qv);
    SubQuote(o, e.key, cs, p);
    SubQuote(o, e.value, cs, p + |qk| + 1);
  }

  /** A single member makes a member list. */
  lemma MembersAtOne(o: ParserOptions, cs: Text, p: nat, es: seq<Entry>, end: nat)
    requires |es| == 1 && end == MemberEnd(p, es[0])
    requires MemberAt(o, cs, p, es[0], KeyEnd(p, es[0]), end)
    ensures MembersAt(o, cs, p, es, end)
  {
  }

  /** A first member ending at k, a `,` and further members make a longer list. */
  lemma MembersAtCons(o: ParserOptions, cs: Text, p: nat, es: seq<Entry>, k: nat, end: nat)
    requires |es| > 1 && k == MemberEnd(p, es[0])
    requires MemberAt(o, cs, p, es[0], KeyEnd(p, es[0]), k)
    requires k < |cs| && cs[k] == COMMA
    requires MembersAt(o, cs, k + 1, es[1..], end)
    ensures MembersAt(o, cs, p, es, end)
  {
  }

  /** A member list of one member, written from p to end. */
  lemma MembersTextOne(o: ParserOptions, es: seq<Entry>, cs: Text, p: nat, end: nat)
    requires |es| == 1 && end == p + |Members(es)| <= |cs| && cs[p..end] == Members(es)
    ensures MembersAt(o, cs, p, es, end)
  {
    assert Members(es) == Member(es[0]);
    MemberText(o, es[0], cs, p, end);
    MembersAtOne(o, cs, p, es, end);
  }

  /** A longer member list written from p to end: its first member ends at k, then
      come a `,` and the other members. */
  lemma MembersTextHead(o: ParserOptions, es: seq<Entry>, cs: Text, p: nat, k: nat, end: nat)
    requires |es| > 1 && end == p + |Members(es)| <= |cs| && cs[p..end] == Members(es)
    requires k == p + |Member(es[0])|
    ensures k == MemberEnd(p, es[0]) && MemberAt(o, cs, p, es[0], KeyEnd(p, es[0]), k)
    ensures k < |cs| && cs[k] == COMMA
    ensures end == k + 1 + |Members(es[1..])| && cs[k + 1..end] == Members(es[1..])
  {
    var m, rest := Member(es[0]), Members(es[1..]);
    assert Members(es) == m + [COMMA] + rest;
    SliceSplit3(cs, p, m, COMMA, rest);
    MemberText(o, es[0], cs, p, k);
  }

  /** The serialised members from position p to end, read as positions. */
  lemma {:induction false} MembersText(o: ParserOptions, es: seq<Entry>, cs: Text, p: nat, end: nat)
    requires |es| > 0 && end == p + |Members(es)| <= |cs| && cs[p..end] == Members(es)
    ensures MembersAt(o, cs, p, es, end)
    decreases |es|
  {
    if |es| == 1 {
      MembersTextOne(o, es, cs, p, end);
    } else {
      var k := p + |Member(es[0])|;
      MembersTextHead(o, es, cs, p, k, end);
      MembersText(o, es[1..], cs, k + 1, end);
      MembersAtCons(o, cs, p, es, k, end);
    }
  }

  /** `{`, the members up to position n + 1, `}`: the parser stops after the `}`
      holding exactly the members. */
  lemma ObjectScan(o: ParserOptions, es: seq<Entry>, cs: Text, n: nat)
    requires n + 1 < |cs| && cs[0] == LBRACE && cs[n + 1] == RBRACE
    requires if |es| == 0 then n == 0 else MembersAt(o, cs, 1, es, n + 1)
    ensures OScan(o, Initial, cs, 0) == (Ok(Initial.(state := 6, entries := es)), n + 2)
  {
    var s1 := Initial.(state := 1);
    assert OStep(o, Initial, cs[0]) == Ok(s1);
    OScanOne(o, Initial, cs, 0, s1);
    if |es| == 0 {
      OScanOne(o, s1, cs, 1, s1.(state := 6));
    } else {
      MembersScan(o, s1, es, cs, 1, n + 1);
      var s2 := s1.(state := 4, entries := [] + es, key := None);
      assert [] + es == es;
      OScanOne(o, s2, cs, n + 1, s2.(state := 6));
    }
  }

  /** The pieces of a text between two delimiters, followed by more text. */
  lemma Enclosed(l: CodeUnit, t: Text, r: CodeUnit, rest: Text)
    ensures var cs := [l] + t + [r] + rest;
            cs[0] == l && cs[|t| + 1] == r && cs[1..1 + |t|] == t
  {
    var cs := [l] + t + [r] + rest;
    assert cs[1..1 + |t|] == t by {
      var inner := cs[1..1 + |t|];
      assert forall i | 0 <= i < |t| :: inner[i] == cs[1 + i] == t[i];
    }
  }

  /** Round trip: the serialised form of any member list is read back as exactly
      that list, in order and with duplicate keys kept, and reading stops right
      after the closing brace. */
  lemma ObjectRoundTrip(o: ParserOptions, es: seq<Entry>, rest: Text, isComplete: bool)
    requires !o.isEnd
    ensures OBuildSpec(o, Initial, Serialize(es) + rest, 0, isComplete).0 == Built(es)
    ensures OBuildSpec(o, Initial, Serialize(es) + rest, 0, isComplete).2 == |Serialize(es)|
  {
    var cs := Serialize(es) + rest;
    var n := |Members(es)|;
    Enclosed(LBRACE, Members(es), RBRACE, rest);
    if |es| > 0 {
      MembersText(o, es, cs, 1, n + 1);
    }
    ObjectScan(o, es, cs, n);
  }
}
