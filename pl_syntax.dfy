/** The syntax of the embedded language that the checker, the lowering and the
    interpreter share (vjson/pl/ast): expressions, statements, the literal tree of
    a JSON instance, and the paths into it that error messages spell out. */
module PlSyntax {
  import opened Wrappers
  import opened PlTypes

  /** A type as written in the program (vjson/pl/ast/Type); its meaning is given by
      the scope it is checked in. */
  datatype TypeRef = TypeRef(name: string)

  /** The integer literal as the JSON reader gave it: an int or a long. */
  datatype JNumber = JInt(i: int) | JLong(l: int)

  datatype Expr =
    | IntegerLiteral(n: JNumber, typeHint: Option<TypeRef>)
    | NullLiteral(declared: Option<TypeRef>)
    | Negative(operand: Expr)
    | FunctionInvocation(target: Expr, args: seq<Expr>)
    | NewInstanceWithJson(ty: TypeRef, json: seq<JsonField>)
    | OtherExpr(id: nat)

  /** The literal tree of a JSON instance: an object (its keys in order), an array,
      or an expression at a leaf. The source holds an object as a map, so its keys
      are distinct; a field list that repeats a key stands for no literal of the
      source, and Lookup then takes the first occurrence. */
  datatype JsonField = JsonField(key: string, value: JsonValue)
  datatype JsonValue = Leaf(e: Expr) | Obj(fields: seq<JsonField>) | Arr(elems: seq<JsonValue>)

  datatype Stmt =
    | Throw(operand: Option<Expr>)
    | ErrorHandling(tryCode: seq<Stmt>, errorCode: seq<Stmt>, elseCode: seq<Stmt>)
    | TemplateTypeInstantiation(typeName: string, templateType: TypeRef, typeParams: seq<TypeRef>)
    | OtherStmt(id: nat, terminates: bool)

  // ---------------------------------------------------------------------------
  // Paths into a JSON literal

  /** One step of an error path: `.name` into an object, `[i]` into an array. */
  datatype PathStep = Key(name: string) | Index(i: nat)

  function DigitChar(d: nat): char
    requires d < 10
  {
    ('0' as int + d) as char
  }

  /** The decimal spelling of a natural number. */
  function NatToString(n: nat): (r: string)
    ensures |r| >= 1
    ensures forall k :: 0 <= k < |r| ==> '0' <= r[k] <= '9'
  {
    if n < 10 then [DigitChar(n)] else NatToString(n / 10) + [DigitChar(n % 10)]
  }

  function RenderStep(s: PathStep): string
  {
    match s
    case Key(name) => "." + name
    case Index(i) => "[" + NatToString(i) + "]"
  }

  /** The path as the checker spells it: `$`, then each step in order. */
  function Render(path: seq<PathStep>): (r: string)
    ensures |r| >= 1 && r[0] == '$'
  {
    if path == [] then "$" else Render(path[..|path| - 1]) + RenderStep(path[|path| - 1])
  }

  /** The spelling of a path extends the spelling of each of its prefixes. */
  lemma {:induction false} RenderExtends(a: seq<PathStep>, b: seq<PathStep>)
    requires a <= b
    ensures Render(a) <= Render(b)
    decreases |b|
  {
    if |a| < |b| {
      var init := b[..|b| - 1];
      assert a == init[..|a|];
      RenderExtends(a, init);
      PrefixAppend(Render(a), Render(init), RenderStep(b[|b| - 1]));
    } else {
      assert a == b;
    }
  }

  lemma PrefixAppend(p: string, q: string, r: string)
    requires p <= q
    ensures p <= q + r
  {
    assert (q + r)[..|p|] == q[..|p|];
  }

  /** The keys of a literal object. */
  function JsonKeys(fields: seq<JsonField>): set<string>
  {
    set i | 0 <= i < |fields| :: fields[i].key
  }

  /** Where key k is found in a literal object: its first occurrence. */
  function Lookup(fields: seq<JsonField>, k: string): (i: nat)
    requires k in JsonKeys(fields)
    ensures i < |fields| && fields[i].key == k
    ensures forall j :: 0 <= j < i ==> fields[j].key != k
  {
    if fields[0].key == k then 0
    else
      assert k in JsonKeys(fields[1..]) by {
        var j :| 0 <= j < |fields| && fields[j].key == k;
        assert fields[1..][j - 1].key == k;
      }
      Lookup(fields[1..], k) + 1
  }

  /** The value a path leads to inside a literal, if it leads anywhere. */
  function Follow(v: JsonValue, path: seq<PathStep>): Option<JsonValue>
    decreases |path|
  {
    if path == [] then Some(v)
    else match path[0]
      case Key(k) =>
        if v.Obj? && k in JsonKeys(v.fields) then Follow(v.fields[Lookup(v.fields, k)].value, path[1..]) else None
      case Index(i) =>
        if v.Arr? && i < |v.elems| then Follow(v.elems[i], path[1..]) else None
  }

  // ---------------------------------------------------------------------------
  // Constructor parameters

  /** A leading `_` of a constructor parameter name is not part of the JSON key. */
  function Strip(name: string): string
  {
    if |name| > 0 && name[0] == '_' then name[1..] else name
  }

  /** The JSON keys a constructor expects. */
  function ParamNames(params: seq<CtorParam>): set<string>
  {
    set i | 0 <= i < |params| :: Strip(params[i].name)
  }
}
