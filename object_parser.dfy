/** The incremental JSON object parser (vjson/parser/ObjectParser.java), section 4 of
    RFC 8259: `{`, then either `}` or key `:` value pairs separated by `,` and closed
    by `}`. Keys and values are read by string sub-parsers that may stay in the middle
    of a string between two calls.

    States: 0 expects `{`, 1 a first key or `}`, 2 the `:`, 3 a value, 4 a `,` or
    `}`, 5 a further key, 6 has seen the final `}`, 7 has returned its result. */
module ObjectParsing {
  import opened Chars
  import opened Wrappers
  import opened ParserUtils
  import opened StringParsing

  /** One member of the object, in the order it was read. */
  datatype Entry = Entry(key: Text, value: Text)

  /** The parser's fields; a sub-parser is present while it is part-way through. */
  datatype OState = OState(state: int, entries: seq<Entry>, key: Option<Text>,
                           keyParser: Option<SState>, valueParser: Option<SState>)

  /** A string sub-parser that has not finished. */
  ghost predicate SubPending(k: SState)
  {
    Inv(k) && k.state != 7 && k.state != 8
  }

  ghost predicate OInv(s: OState)
  {
    && 0 <= s.state <= 7
    && (s.keyParser.Some? ==> (s.state == 1 || s.state == 5) && SubPending(s.keyParser.value))
    && (s.valueParser.Some? ==> s.state == 3 && SubPending(s.valueParser.value))
    && (s.state == 2 || s.state == 3 ==> s.key.Some?)
  }

  /** The state after construction and after reset: state 0, no entries, no key and
      no sub-parsers. */
  const Initial: OState := OState(0, [], None, None, None)

  function KeyError(m: string): string
  {
    "invalid json object: failed when parsing key: (" + m + ")"
  }

  function ValueError(m: string): string
  {
    "invalid json object: failed when parsing value: (" + m + ")"
  }

  /** A key has been read: it becomes the current key and a `:` is expected. */
  function KeyDone(s: OState, x: Text): OState
  {
    s.(state := 2, key := Some(x), keyParser := None)
  }

  /** A value has been read: the member is appended and a `,` or `}` is expected. */
  function ValueDone(s: OState, x: Text): OState
    requires s.key.Some?
  {
    s.(state := 4, entries := s.entries + [Entry(s.key.value, x)], key := None, valueParser := None)
  }

  /** One unit for the key sub-parser k. */
  function FeedKey(o: ParserOptions, s: OState, k: SState, c: CodeUnit): (r: Result<OState>)
    requires OInv(s) && SubPending(k) && (s.state == 1 || s.state == 5) && s.valueParser.None?
    ensures r.Ok? ==> OInv(r.value)
  {
    match Step(SubParserOptions(o), k, c)
    case Err(m) => Err(KeyError(m))
    case Ok(k') =>
      if k'.state == 7 then Ok(KeyDone(s, k'.builder)) else Ok(s.(keyParser := Some(k')))
  }

  /** One unit for the value sub-parser v. */
  function FeedValue(o: ParserOptions, s: OState, v: SState, c: CodeUnit): (r: Result<OState>)
    requires OInv(s) && SubPending(v) && s.state == 3 && s.keyParser.None?
    ensures r.Ok? ==> OInv(r.value)
  {
    match Step(SubParserOptions(o), v, c)
    case Err(m) => Err(ValueError(m))
    case Ok(v') =>
      if v'.state == 7 then Ok(ValueDone(s, v'.builder)) else Ok(s.(valueParser := Some(v')))
  }

  /** What one unit does while no sub-parser is in progress: move to a new state,
      fail, or start a string sub-parser for a key or a value with this unit. */
  datatype IdleMove = Move(next: OState) | Fail(msg: string) | OpenKey | OpenValue

  function IdleStep(s: OState, c: CodeUnit): (r: IdleMove)
    requires OInv(s) && s.keyParser.None? && s.valueParser.None?
    ensures r.Move? ==> OInv(r.next) && r.next.keyParser.None? && r.next.valueParser.None?
    ensures r.Move? && s.state != 7 ==> r.next.state != 7
    ensures r.Move? && IsWhiteSpace(c) ==> r.next == s
    ensures r.OpenKey? ==> (s.state == 1 || s.state == 5) && !IsWhiteSpace(c)
    ensures r.OpenValue? ==> s.state == 3 && !IsWhiteSpace(c)
  {
    if IsWhiteSpace(c) then Move(s)
    else if s.state == 0 then
      if c == LBRACE then Move(s.(state := 1))
      else Fail("invalid character for json object: not starts with `{`")
    else if s.state == 1 then
      if c == RBRACE then Move(s.(state := 6)) else OpenKey
    else if s.state == 2 then
      if c == COLON then Move(s.(state := 3))
      else Fail("invalid key-value separator for json object, expecting `:`")
    else if s.state == 3 then OpenValue
    else if s.state == 4 then
      if c == RBRACE then Move(s.(state := 6))
      else if c == COMMA then Move(s.(state := 5))
      else Fail("invalid character for json object, expecting `}` or `,`")
    else if s.state == 5 then OpenKey
    else Move(s)
  }

  /** One unit of input. A sub-parser in progress gets it; otherwise blanks are
      skipped, punctuation moves the state on, and the first unit of a key or value
      starts a fresh string sub-parser. */
  function OStep(o: ParserOptions, s: OState, c: CodeUnit): (r: Result<OState>)
    requires OInv(s)
    ensures r.Ok? ==> OInv(r.value)
    ensures r.Ok? && s.state != 7 ==> r.value.state != 7
  {
    if s.keyParser.Some? then FeedKey(o, s, s.keyParser.value, c)
    else if s.valueParser.Some? then FeedValue(o, s, s.valueParser.value, c)
    else match IdleStep(s, c)
      case Move(s') => Ok(s')
      case Fail(m) => Err(m)
      case OpenKey => FeedKey(o, s, Fresh, c)
      case OpenValue => FeedValue(o, s, Fresh, c)
  }

  /** The parse loop from `pos`: until the final `}` (state 6) or the end of input. */
  function OScan(o: ParserOptions, s: OState, cs: Text, pos: nat): (r: (Result<OState>, nat))
    requires OInv(s) && pos <= |cs|
    ensures pos <= r.1 <= |cs|
    ensures r.0.Ok? ==> OInv(r.0.value) && (r.1 == |cs| || r.0.value.state == 6)
    ensures r.0.Ok? && s.state != 7 ==> r.0.value.state != 7
    decreases |cs| - pos, 1
  {
    if pos == |cs| || s.state == 6 then (Ok(s), pos) else OScanFrom(o, s, cs, pos)
  }

  /** One turn of the parse loop at `pos`, then the rest of the loop. */
  function OScanFrom(o: ParserOptions, s: OState, cs: Text, pos: nat): (r: (Result<OState>, nat))
    requires OInv(s) && pos < |cs| && s.state != 6
    ensures pos < r.1 <= |cs|
    ensures r.0.Ok? ==> OInv(r.0.value) && (r.1 == |cs| || r.0.value.state == 6)
    ensures r.0.Ok? && s.state != 7 ==> r.0.value.state != 7
    decreases |cs| - pos, 0
  {
    match OStep(o, s, cs[pos])
    case Err(m) => (Err(m), pos + 1)
    case Ok(s') => OScan(o, s', cs, pos + 1)
  }

  /** The loop takes one unit at a time. */
  lemma OScanOne(o: ParserOptions, s: OState, cs: Text, p: nat, s': OState)
    requires OInv(s) && p < |cs| && s.state != 6 && OStep(o, s, cs[p]) == Ok(s')
    ensures OScan(o, s, cs, p) == OScan(o, s', cs, p + 1)
  {
  }

  /** One idle unit of the loop: a move continues after the unit, a failure ends
      the loop past it, and a sub-parser started before the unit reads it. */
  lemma OScanIdle(o: ParserOptions, s: OState, cs: Text, p: nat)
    requires OInv(s) && s.keyParser.None? && s.valueParser.None? && s.state != 6
    requires p < |cs|
    ensures match IdleStep(s, cs[p])
            case Move(s') => OScan(o, s, cs, p) == OScan(o, s', cs, p + 1)
            case Fail(m) => OScan(o, s, cs, p) == (Err(m), p + 1)
            case OpenKey =>
              && OInv(s.(keyParser := Some(Fresh)))
              && OScan(o, s, cs, p) == OScan(o, s.(keyParser := Some(Fresh)), cs, p)
            case OpenValue =>
              && OInv(s.(valueParser := Some(Fresh)))
              && OScan(o, s, cs, p) == OScan(o, s.(valueParser := Some(Fresh)), cs, p)
  {
    assert OScan(o, s, cs, p) == OScanFrom(o, s, cs, p);
    match IdleStep(s, cs[p])
    case Move(s') =>
    case Fail(m) =>
    case OpenKey =>
      var s' := s.(keyParser := Some(Fresh));
      assert OScan(o, s', cs, p) == OScanFrom(o, s', cs, p);
      assert OStep(o, s, cs[p]) == FeedKey(o, s, Fresh, cs[p]) == OStep(o, s', cs[p]);
    case OpenValue =>
      var s' := s.(valueParser := Some(Fresh));
      assert OScan(o, s', cs, p) == OScanFrom(o, s', cs, p);
      assert OStep(o, s, cs[p]) == FeedValue(o, s, Fresh, cs[p]) == OStep(o, s', cs[p]);
  }

  /** tryParse: true once the final `}` is read (the state becomes 7); at the end of
      the input, false, or, if the input is complete, the error of the unfinished
      sub-parser or of the object; after the result, non-blank input is a
      ParserFinishedException. */
  function OTrySpec(o: ParserOptions, s: OState, cs: Text, pos: nat, isComplete: bool)
    : (r: (TryResult, OState, nat))
    requires OInv(s) && pos <= |cs|
    ensures pos <= r.2 <= |cs| && OInv(r.1)
  {
    if s.state == 7 then
      var p := SkipBlank(cs, pos);
      (if p < |cs| then TryFinished else TryOk(false), s, p)
    else
      var (res, next) := OScan(o, s, cs, pos);
      OTryFinish(s, res, next, isComplete)
  }

  /** tryParse once its loop has stopped at `next` with `res`. */
  function OTryFinish(s: OState, res: Result<OState>, next: nat, isComplete: bool): (r: (TryResult, OState, nat))
    requires OInv(s) && (res.Ok? ==> OInv(res.value))
    ensures OInv(r.1) && r.2 == next
  {
    match res
    case Err(m) => (TryErr(m), s, next)
    case Ok(s') =>
      if s'.state == 6 then (TryOk(true), s'.(state := 7), next)
      else if isComplete && s'.keyParser.Some? then
        (TryErr(KeyError("expecting more characters to build string")), s', next)
      else if isComplete && s'.valueParser.Some? then
        (TryErr(ValueError("expecting more characters to build string")), s', next)
      else if isComplete then (TryErr("expecting more characters to build object"), s', next)
      else (TryOk(false), s', next)
  }

  /** The errors the parse loop stops with are the errors of tryParse. */
  lemma OTryError(o: ParserOptions, s: OState, cs: Text, pos: nat, isComplete: bool, m: string, next: nat)
    requires OInv(s) && s.state != 7 && pos <= |cs|
    requires || OScan(o, s, cs, pos) == (Err(m), next)
             || (&& isComplete && OScan(o, s, cs, pos).0.Ok? && OScan(o, s, cs, pos).1 == |cs| == next
                 && (|| (OScan(o, s, cs, pos).0.value.keyParser.Some?
                         && m == KeyError("expecting more characters to build string"))
                     || (OScan(o, s, cs, pos).0.value.valueParser.Some?
                         && m == ValueError("expecting more characters to build string"))))
    ensures OTrySpec(o, s, cs, pos, isComplete).0 == TryErr(m)
    ensures OTrySpec(o, s, cs, pos, isComplete).2 == next
  {
  }

  /** build: the members read, once the object is complete (the end-of-input rule of
      the options applies to what follows); null while more input is needed. */
  function OBuildSpec(o: ParserOptions, s: OState, cs: Text, pos: nat, isComplete: bool)
    : (r: (BuildOutcome<seq<Entry>>, OState, nat))
    requires OInv(s) && pos <= |cs|
    ensures pos <= r.2 <= |cs| && OInv(r.1)
  {
    var (t, s', next) := OTrySpec(o, s, cs, pos, isComplete);
    match t
    case TryErr(m) => (ParseError(m), s', next)
    case TryFinished => (Finished, s', next)
    case TryOk(done) =>
      if !done then (Pending, s', next)
      else match CheckEnd(o, cs, next, "object")
        case Err(m) => (ParseError(m), s', next)
        case Ok(p) => (Built(s'.entries), s', p)
  }

  /** A string sub-parser's build, in terms of its parse loop: its options never
      require the end of input, so a finished string returns where it closed. */
  lemma SubBuild(o: ParserOptions, k: SState, cs: Text, p: nat, isComplete: bool)
    requires !o.isEnd && Inv(k) && k.state != 8 && p <= |cs|
    ensures var (r, e) := Scan(o, k, cs, p);
            BuildSpec(o, k, cs, p, isComplete) ==
              match r
              case Err(m) => (ParseError(m), k, e)
              case Ok(k') =>
                if k'.state == 7 then (Built(k'.builder), k'.(state := 8), e)
                else if isComplete then (ParseError("expecting more characters to build string"), k', e)
                else (Pending, k', e)
  {
  }

  /** The object loop while a key is being read is the key parser's loop. */
  lemma {:induction false} OScanKey(o: ParserOptions, s: OState, cs: Text, p: nat)
    requires OInv(s) && s.keyParser.Some? && p <= |cs|
    ensures var (r, e) := Scan(SubParserOptions(o), s.keyParser.value, cs, p);
            OScan(o, s, cs, p) ==
              match r
              case Err(m) => (Err(KeyError(m)), e)
              case Ok(k') =>
                if k'.state == 7 then OScan(o, KeyDone(s, k'.builder), cs, e)
                else (Ok(s.(keyParser := Some(k'))), e)
    decreases |cs| - p
  {
    var k := s.keyParser.value;
    if p < |cs| {
      assert Scan(SubParserOptions(o), k, cs, p) == ScanFrom(SubParserOptions(o), k, cs, p);
      assert OScan(o, s, cs, p) == OScanFrom(o, s, cs, p);
      match Step(SubParserOptions(o), k, cs[p])
      case Err(m) =>
        assert OStep(o, s, cs[p]) == Err(KeyError(m));
      case Ok(k1) =>
        if k1.state != 7 {
          assert OStep(o, s, cs[p]) == Ok(s.(keyParser := Some(k1)));
          OScanKey(o, s.(keyParser := Some(k1)), cs, p + 1);
        } else {
          assert OStep(o, s, cs[p]) == Ok(KeyDone(s, k1.builder));
          assert Scan(SubParserOptions(o), k1, cs, p + 1) == (Ok(k1), p + 1);
        }
    }
  }

  /** The object loop while a value is being read is the value parser's loop. */
  lemma {:induction false} OScanValue(o: ParserOptions, s: OState, cs: Text, p: nat)
    requires OInv(s) && s.valueParser.Some? && p <= |cs|
    ensures var (r, e) := Scan(SubParserOptions(o), s.valueParser.value, cs, p);
            OScan(o, s, cs, p) ==
              match r
              case Err(m) => (Err(ValueError(m)), e)
              case Ok(v') =>
                if v'.state == 7 then OScan(o, ValueDone(s, v'.builder), cs, e)
                else (Ok(s.(valueParser := Some(v'))), e)
    decreases |cs| - p
  {
    var v := s.valueParser.value;
    if p < |cs| {
      assert Scan(SubParserOptions(o), v, cs, p) == ScanFrom(SubParserOptions(o), v, cs, p);
      assert OScan(o, s, cs, p) == OScanFrom(o, s, cs, p);
      match Step(SubParserOptions(o), v, cs[p])
      case Err(m) =>
        assert OStep(o, s, cs[p]) == Err(ValueError(m));
      case Ok(v1) =>
        if v1.state != 7 {
          assert OStep(o, s, cs[p]) == Ok(s.(valueParser := Some(v1)));
          OScanValue(o, s.(valueParser := Some(v1)), cs, p + 1);
        } else {
          assert OStep(o, s, cs[p]) == Ok(ValueDone(s, v1.builder));
          assert Scan(SubParserOptions(o), v1, cs, p + 1) == (Ok(v1), p + 1);
        }
    }
  }

  class ObjectParser {
    const opts: ParserOptions
    var state: int
    var entries: seq<Entry>
    var currentKey: Option<Text>
    var keyParser: StringParser?
    var valueParser: StringParser?

    function Abs(): OState
      reads this, keyParser, valueParser
    {
      OState(state, entries, currentKey,
             if keyParser == null then None else Some(keyParser.Abs()),
             if valueParser == null then None else Some(valueParser.Abs()))
    }

    ghost predicate Valid()
      reads this, keyParser, valueParser
    {
      && (keyParser != null ==> keyParser.Valid() && keyParser.opts == SubParserOptions(opts))
      && (valueParser != null ==> valueParser.Valid() && valueParser.opts == SubParserOptions(opts))
      && OInv(Abs())
    }

    constructor (opts: ParserOptions)
      ensures Valid() && this.opts == opts && Abs() == Initial
    {
      this.opts := opts;
      state := 0;
      entries := [];
      currentKey := None;
      keyParser := null;
      valueParser := null;
    }

    method Reset()
      modifies this
      ensures Valid() && Abs() == Initial
    {
      state := 0;
      entries := [];
      currentKey := None;
      keyParser := null;
      valueParser := null;
    }

    /** setCurrentKey: a missing (null) key is rejected and nothing changes. */
    method SetCurrentKey(key: Option<Text>) returns (r: Result<Text>)
      requires Valid()
      modifies this
      ensures Valid()
      ensures key.None? ==> r.Err? && Abs() == old(Abs())
      ensures key.Some? ==> r == Ok(key.value) && Abs() == old(Abs()).(key := key)
    {
      if key.None? {
        return Err("NullPointerException");
      }
      currentKey := key;
      r := Ok(key.value);
    }

    /** handleKeyParser: the key parser reads as far as it can. */
    method FeedKeyParser(cs: Text, p: nat, isComplete: bool) returns (err: Option<string>, next: nat)
      requires Valid() && keyParser != null && p < |cs|
      modifies this, keyParser
      ensures Valid() && state != 7 && valueParser == old(valueParser)
      ensures keyParser == null || keyParser == old(keyParser)
      ensures err.None? ==> p < next <= |cs| && OScan(opts, old(Abs()), cs, p) == OScan(opts, Abs(), cs, next)
      ensures err.Some? ==>
                || OScan(opts, old(Abs()), cs, p) == (Err(err.value), next)
                || (&& isComplete && OScan(opts, old(Abs()), cs, p).0.Ok? && OScan(opts, old(Abs()), cs, p).1 == |cs| == next
                    && OScan(opts, old(Abs()), cs, p).0.value.keyParser.Some?
                    && err.value == KeyError("expecting more characters to build string"))
    {
      OScanKey(opts, Abs(), cs, p);
      SubBuild(keyParser.opts, keyParser.Abs(), cs, p, isComplete);
      var kr;
      kr, next := keyParser.Build(cs, p, isComplete);
      match kr
      case ParseError(m) =>
        err := Some(KeyError(m));
      case Built(x) =>
        state, currentKey, keyParser := 2, Some(x), null;
        err := None;
      case Pending =>
        err := None;
      case Finished =>
        assert false;
    }

    /** handleValueParser: the value parser reads as far as it can; a finished value
        is appended with the current key. */
    method FeedValueParser(cs: Text, p: nat, isComplete: bool) returns (err: Option<string>, next: nat)
      requires Valid() && valueParser != null && p < |cs|
      modifies this, valueParser
      ensures Valid() && state != 7 && keyParser == old(keyParser)
      ensures valueParser == null || valueParser == old(valueParser)
      ensures err.None? ==> p < next <= |cs| && OScan(opts, old(Abs()), cs, p) == OScan(opts, Abs(), cs, next)
      ensures err.Some? ==>
                || OScan(opts, old(Abs()), cs, p) == (Err(err.value), next)
                || (&& isComplete && OScan(opts, old(Abs()), cs, p).0.Ok? && OScan(opts, old(Abs()), cs, p).1 == |cs| == next
                    && OScan(opts, old(Abs()), cs, p).0.value.valueParser.Some?
                    && err.value == ValueError("expecting more characters to build string"))
    {
      OScanValue(opts, Abs(), cs, p);
      SubBuild(valueParser.opts, valueParser.Abs(), cs, p, isComplete);
      var vr;
      vr, next := valueParser.Build(cs, p, isComplete);
      match vr
      case ParseError(m) =>
        err := Some(ValueError(m));
      case Built(x) =>
        entries := entries + [Entry(currentKey.value, x)];
        state, currentKey, valueParser := 4, None, null;
        err := None;
      case Pending =>
        err := None;
      case Finished =>
        assert false;
    }

    /** A fresh string sub-parser for the key about to start. */
    method StartKey()
      requires Valid() && keyParser == null && valueParser == null && (state == 1 || state == 5)
      modifies this
      ensures Valid() && fresh(keyParser) && valueParser == null
      ensures Abs() == old(Abs()).(keyParser := Some(Fresh))
    {
      keyParser := new StringParser(SubParserOptions(opts));
    }

    /** A fresh string sub-parser for the value about to start. */
    method StartValue()
      requires Valid() && keyParser == null && valueParser == null && state == 3
      modifies this
      ensures Valid() && fresh(valueParser) && keyParser == null
      ensures Abs() == old(Abs()).(valueParser := Some(Fresh))
    {
      valueParser := new StringParser(SubParserOptions(opts));
    }

    /** One unit of input while no sub-parser is in progress; the first unit of a key
        or value is left for the string sub-parser it creates. */
    method StepIdle(cs: Text, p: nat) returns (err: Option<string>, next: nat)
      requires Valid() && keyParser == null && valueParser == null && p < |cs| && state != 6 && state != 7
      modifies this
      ensures Valid() && state != 7
      ensures keyParser != null ==> fresh(keyParser)
      ensures valueParser != null ==> fresh(valueParser)
      ensures err.None? ==> (p < next <= |cs| || (next == p && (keyParser != null || valueParser != null)))
      ensures err.None? ==> OScan(opts, old(Abs()), cs, p) == OScan(opts, Abs(), cs, next)
      ensures err.Some? ==> OScan(opts, old(Abs()), cs, p) == (Err(err.value), next)
    {
      var c := cs[p];
      OScanIdle(opts, Abs(), cs, p);
      err, next := None, p + 1;
      if IsWhiteSpace(c) {
      } else if state == 0 {
        if c == LBRACE {
          state := 1;
        } else {
          err := Some("invalid character for json object: not starts with `{`");
        }
      } else if state == 1 && c == RBRACE {
        state := 6;
      } else if state == 1 || state == 5 {
        StartKey();
        next := p;
      } else if state == 2 {
        if c == COLON {
          state := 3;
        } else {
          err := Some("invalid key-value separator for json object, expecting `:`");
        }
      } else if state == 3 {
        StartValue();
        next := p;
      } else {
        if c == RBRACE {
          state := 6;
        } else if c == COMMA {
          state := 5;
        } else {
          err := Some("invalid character for json object, expecting `}` or `,`");
        }
      }
    }

    /** The main loop of tryParse: feed the sub-parser in progress, or one unit,
        until the final `}` or the end of the input. */
    method ParseLoop(cs: Text, pos: nat, isComplete: bool) returns (err: Option<string>, next: nat)
      requires Valid() && pos <= |cs| && state != 7
      modifies this, keyParser, valueParser
      ensures Valid() && state != 7
      ensures err.None? ==> OScan(opts, old(Abs()), cs, pos) == (Ok(Abs()), next)
      ensures err.Some? ==>
                || OScan(opts, old(Abs()), cs, pos) == (Err(err.value), next)
                || (&& isComplete && OScan(opts, old(Abs()), cs, pos).0.Ok?
                    && OScan(opts, old(Abs()), cs, pos).1 == |cs| == next
                    && (|| (OScan(opts, old(Abs()), cs, pos).0.value.keyParser.Some?
                            && err.value == KeyError("expecting more characters to build string"))
                        || (OScan(opts, old(Abs()), cs, pos).0.value.valueParser.Some?
                            && err.value == ValueError("expecting more characters to build string"))))
    {
      next := pos;
      while next < |cs| && state != 6
        invariant pos <= next <= |cs|
        invariant Valid() && state != 7
        invariant keyParser != null ==> keyParser == old(keyParser) || fresh(keyParser)
        invariant valueParser != null ==> valueParser == old(valueParser) || fresh(valueParser)
        invariant OScan(opts, old(Abs()), cs, pos) == OScan(opts, Abs(), cs, next)
        decreases |cs| - next, if keyParser == null && valueParser == null then 1 else 0
      {
        ghost var before, p := Abs(), next;
        if keyParser != null {
          err, next := FeedKeyParser(cs, next, isComplete);
        } else if valueParser != null {
          err, next := FeedValueParser(cs, next, isComplete);
        } else {
          err, next := StepIdle(cs, next);
        }
        if err.Some? {
          assert OScan(opts, old(Abs()), cs, pos) == OScan(opts, before, cs, p);
          return;
        }
      }
      err := None;
    }

    method TryParse(cs: Text, pos: nat, isComplete: bool) returns (r: TryResult, next: nat)
      requires Valid() && pos <= |cs|
      modifies this, keyParser, valueParser
      ensures Valid()
      ensures (r, next) == (OTrySpec(opts, old(Abs()), cs, pos, isComplete).0,
                            OTrySpec(opts, old(Abs()), cs, pos, isComplete).2)
      ensures !r.TryErr? ==> Abs() == OTrySpec(opts, old(Abs()), cs, pos, isComplete).1
    {
      if state == 7 {
        next := SkipBlank(cs, pos);
        r := if next < |cs| then TryFinished else TryOk(false);
        return;
      }
      ghost var s0 := Abs();
      var err;
      err, next := ParseLoop(cs, pos, isComplete);
      if err.Some? {
        OTryError(opts, s0, cs, pos, isComplete, err.value, next);
        r := TryErr(err.value);
        return;
      }
      ghost var s1 := Abs();
      assert OTrySpec(opts, s0, cs, pos, isComplete) == OTryFinish(s0, Ok(s1), next, isComplete);
      if state == 6 {
        state := 7;
        r := TryOk(true);
      } else if isComplete && keyParser != null {
        r := TryErr(KeyError("expecting more characters to build string"));
      } else if isComplete && valueParser != null {
        r := TryErr(ValueError("expecting more characters to build string"));
      } else if isComplete {
        r := TryErr("expecting more characters to build object");
      } else {
        r := TryOk(false);
      }
    }

    method Build(cs: Text, pos: nat, isComplete: bool) returns (r: BuildOutcome<seq<Entry>>, next: nat)
      requires Valid() && pos <= |cs|
      modifies this, keyParser, valueParser
      ensures Valid()
      ensures (r, next) == (OBuildSpec(opts, old(Abs()), cs, pos, isComplete).0,
                            OBuildSpec(opts, old(Abs()), cs, pos, isComplete).2)
      ensures !r.ParseError? ==> Abs() == OBuildSpec(opts, old(Abs()), cs, pos, isComplete).1
    {
      var t;
      t, next := TryParse(cs, pos, isComplete);
      match t
      case TryErr(m) => r := ParseError(m);
      case TryFinished => r := Finished;
      case TryOk(done) =>
        if !done {
          r := Pending;
        } else {
          var e := CheckEnd(opts, cs, next, "object");
          match e
          case Err(m) => r := ParseError(m);
          case Ok(p) => r := Built(entries); next := p;
        }
    }

    /** Parser.feed: build with more input to come. */
    method Feed(cs: Text, pos: nat) returns (r: BuildOutcome<seq<Entry>>, next: nat)
      requires Valid() && pos <= |cs|
      modifies this, keyParser, valueParser
      ensures Valid()
      ensures (r, next) == (OBuildSpec(opts, old(Abs()), cs, pos, false).0,
                            OBuildSpec(opts, old(Abs()), cs, pos, false).2)
      ensures !r.ParseError? ==> Abs() == OBuildSpec(opts, old(Abs()), cs, pos, false).1
    {
      r, next := Build(cs, pos, false);
    }

    /** Parser.last: build with this being the end of the input. */
    method Last(cs: Text, pos: nat) returns (r: BuildOutcome<seq<Entry>>, next: nat)
      requires Valid() && pos <= |cs|
      modifies this, keyParser, valueParser
      ensures Valid()
      ensures (r, next) == (OBuildSpec(opts, old(Abs()), cs, pos, true).0,
                            OBuildSpec(opts, old(Abs()), cs, pos, true).2)
      ensures !r.ParseError? ==> Abs() == OBuildSpec(opts, old(Abs()), cs, pos, true).1
    {
      r, next := Build(cs, pos, true);
    }

    /** Parser.end: `last` on an empty stream. */
    method End() returns (r: BuildOutcome<seq<Entry>>)
      requires Valid()
      modifies this, keyParser, valueParser
      ensures Valid()
      ensures r == OBuildSpec(opts, old(Abs()), [], 0, true).0
      ensures !r.ParseError? ==> Abs() == OBuildSpec(opts, old(Abs()), [], 0, true).1
    {
      var next;
      r, next := Last([], 0);
    }
  }
}
