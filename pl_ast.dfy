/** The checking pass of the embedded language (vjson/pl/ast): typing of the
    literal, negation, invocation and JSON-instance expressions, the rules of the
    throw, error-handling and template-instantiation statements, and whether a
    statement terminates the function. A type scope is a value; a statement's check
    gives the scope that follows it. */
module PlAst {
  import opened Wrappers
  import opened PlTypes
  import opened PlSyntax
  import opened JsonLowering

  /** The collaborators of the checker that are not part of this model:
      resolving a written type in a scope (Type.check), TypeUtils.assignableFrom
      (parameter type, argument type), a template's `concrete`, the checks of
      every other kind of expression and statement, and the value of the type
      context's temporary counter (TypeContext.nextCounter) when a JSON instance
      is checked. */
  datatype Env = Env(
    resolve: (Scope, TypeRef) -> Result<Ty>,
    assignable: (Ty, Ty) -> bool,
    concrete: (Scope, string, Ty, seq<Ty>) -> Result<Ty>,
    otherExpr: (Scope, nat) -> Result<Ty>,
    otherStmt: (Scope, nat) -> Result<Scope>,
    counterAt: Expr -> nat)

  /** The parameter map of checkObject: stripped name to type, filled in parameter
      order, so that of two parameters with the same stripped name the later one
      gives the type. */
  function ParamsMap(params: seq<CtorParam>): (m: map<string, Ty>)
    ensures m.Keys == ParamNames(params)
    ensures params != [] ==> m[Strip(params[|params| - 1].name)] == params[|params| - 1].ty
  {
    if params == [] then map[]
    else
      var last := params[|params| - 1];
      var m := ParamsMap(params[..|params| - 1])[Strip(last.name) := last.ty];
      assert m.Keys == ParamNames(params) by {
        forall k | k in ParamNames(params) ensures k in m.Keys {
          var i :| 0 <= i < |params| && Strip(params[i].name) == k;
          if i < |params| - 1 {
            assert Strip(params[..|params| - 1][i].name) == k;
          }
        }
      }
      m
  }

  // ---------------------------------------------------------------------------
  // Expressions

  /** IntegerLiteral.check and typeInstance: Long when the hint is Long, otherwise
      Long exactly for a long literal. A hint that does not resolve is an error. */
  function LiteralType(env: Env, scope: Scope, n: JNumber, hint: Option<TypeRef>): Result<Ty>
  {
    if hint.Some? && env.resolve(scope, hint.value).Err? then env.resolve(scope, hint.value)
    else if hint.Some? && env.resolve(scope, hint.value) == Ok(Long) then Ok(Long)
    else if n.JLong? then Ok(Long)
    else Ok(Int)
  }

  /** NullLiteral.check and typeInstance: NullType, or the declared type. */
  function NullLiteralType(env: Env, scope: Scope, declared: Option<TypeRef>): Result<Ty>
  {
    if declared.None? then Ok(Null) else env.resolve(scope, declared.value)
  }

  /** What went wrong at a place in a JSON literal. LeafError carries the message of
      the leaf expression's own check, which is raised unchanged. */
  datatype JsonFault = NoConstructor | KeysMismatch | NotArray | LeafMismatch | LeafError(msg: string)

  datatype JsonOutcome = Pass | Fail(path: seq<PathStep>, fault: JsonFault)

  function FaultMessage(path: seq<PathStep>, fault: JsonFault): string
  {
    match fault
    case NoConstructor => "no constructor found for type at " + Render(path)
    case KeysMismatch => "keys in json doesn't match parameters in constructor at " + Render(path)
    case NotArray => "type is not an array at " + Render(path)
    case LeafMismatch => "value is not of the parameter type at " + Render(path)
    case LeafError(m) => m
  }

  /** The fault fits the literal value the path leads to: constructor faults are
      reported at objects, array faults at arrays, type faults at leaves. */
  predicate FaultAt(found: Option<JsonValue>, fault: JsonFault)
  {
    found.Some? &&
    match fault
    case NoConstructor => found.value.Obj?
    case KeysMismatch => found.value.Obj?
    case NotArray => found.value.Arr?
    case LeafMismatch => found.value.Leaf?
    case LeafError(_) => found.value.Leaf?
  }

  /** The type an expression checks to (Expr.check), or the checking error. A JSON
      instance is also lowered while it is checked (NewInstanceWithJson.kt:30), so
      a failure of its lowering is a failure of its check. */
  function Check(env: Env, scope: Scope, e: Expr): (r: Result<Ty>)
    ensures e.IntegerLiteral? && r.Ok? ==> r.value == Int || r.value == Long
    ensures e.Negative? && r.Ok? ==> IsNumeric(r.value)
    ensures e.FunctionInvocation? && r.Ok? ==>
              Check(env, scope, e.target).Ok? && FunctionDescriptor(Check(env, scope, e.target).value).Some?
              && r.value == FunctionDescriptor(Check(env, scope, e.target).value).value.returnType
    ensures e.NewInstanceWithJson? && r.Ok? ==> r == env.resolve(scope, e.ty)
    decreases e, 2
  {
    match e
    case IntegerLiteral(n, hint) => LiteralType(env, scope, n, hint)
    case NullLiteral(declared) => NullLiteralType(env, scope, declared)
    case Negative(x) =>
      var t :- Check(env, scope, x);
      if IsNumeric(t) then Ok(t) else Err("type of operand is not numeric")
    case FunctionInvocation(target, args) =>
      var t :- Check(env, scope, target);
      if FunctionDescriptor(t).None? then Err("unable to invoke target, which is not a functional object")
      else
        var desc := FunctionDescriptor(t).value;
        if |desc.params| != |args| then Err("arguments count and parameters count mismatch")
        else
          var _ :- CheckArgs(env, scope, args, desc.params, 0);
          Ok(desc.returnType)
    case NewInstanceWithJson(tref, json) => CheckJsonInstance(env, scope, tref, json, env.counterAt(e))
    case OtherExpr(id) => env.otherExpr(scope, id)
  }

  /** NewInstanceWithJson.check: the type must resolve and the literal must check
      against it from the root path; then the instance is lowered, from the given
      counter value, and a lowering that fails fails the check. */
  function CheckJsonInstance(env: Env, scope: Scope, tref: TypeRef, json: seq<JsonField>, counter: nat): (r: Result<Ty>)
    ensures r.Ok? ==> r == env.resolve(scope, tref) && CheckObject(env, scope, [], r.value, json).Pass?
    decreases json, 2
  {
    var t :- env.resolve(scope, tref);
    var o := CheckObject(env, scope, [], t, json);
    if o.Fail? then Err(FaultMessage(o.path, o.fault))
    else
      var _ :- LowerObject(t, None, json, counter);
      Ok(t)
  }

  function ArgMismatch(i: nat): string
  {
    "args[" + NatToString(i) + "] does not match params[" + NatToString(i) + "]"
  }

  /** The argument loop of FunctionInvocation.check from index i: each argument is
      checked in order and must be assignable to its parameter. */
  function CheckArgs(env: Env, scope: Scope, args: seq<Expr>, params: seq<ParamInstance>, i: nat): (r: Result<()>)
    requires |params| == |args| && i <= |args|
    ensures i == |args| ==> r.Ok?
    ensures r.Ok? && i < |args| ==>
              Check(env, scope, args[i]).Ok? && env.assignable(params[i].ty, Check(env, scope, args[i]).value)
    decreases args, |args| - i
  {
    if i == |args| then Ok(())
    else
      var t :- Check(env, scope, args[i]);
      if !env.assignable(params[i].ty, t) then Err(ArgMismatch(i))
      else CheckArgs(env, scope, args, params, i + 1)
  }

  /** checkObject: the type must have a constructor, the literal's keys must be
      exactly its stripped parameter names, and then every parameter's value is
      checked against the parameter's type at path `.name`. */
  function CheckObject(env: Env, scope: Scope, path: seq<PathStep>, ty: Ty, fields: seq<JsonField>): (r: JsonOutcome)
    ensures Constructor(ty).None? ==> r == Fail(path, NoConstructor)
    ensures Constructor(ty).Some? && JsonKeys(fields) != ParamNames(Constructor(ty).value) ==>
              r == Fail(path, KeysMismatch)
    ensures r.Fail? ==> path <= r.path && FaultAt(Follow(Obj(fields), r.path[|path|..]), r.fault)
    decreases fields, 1
  {
    match Constructor(ty)
    case None =>
      assert path[|path|..] == [];
      Fail(path, NoConstructor)
    case Some(cons) =>
      if JsonKeys(fields) != ParamNames(cons) then
        assert path[|path|..] == [];
        Fail(path, KeysMismatch)
      else CheckEntries(env, scope, path, cons, fields, 0)
  }

  /** The loop of checkObject over the parameters from index j. */
  function CheckEntries(env: Env, scope: Scope, path: seq<PathStep>, cons: seq<CtorParam>, fields: seq<JsonField>, j: nat)
    : (r: JsonOutcome)
    requires JsonKeys(fields) == ParamNames(cons) && j <= |cons|
    ensures r.Fail? ==> path <= r.path && FaultAt(Follow(Obj(fields), r.path[|path|..]), r.fault)
    decreases fields, 0, |cons| - j, 1
  {
    if j == |cons| then Pass
    else
      var p := Strip(cons[j].name);
      assert p in ParamNames(cons);
      var sub := path + [Key(p)];
      match EntryOutcome(env, scope, path, cons, fields, j)
      case Pass => CheckEntries(env, scope, path, cons, fields, j + 1)
      case Fail(fp, fault) =>
        assert fp[|path|..] == [Key(p)] + fp[|sub|..] by {
          assert sub <= fp;
        }
        Fail(fp, fault)
  }

  /** The value checked for constructor parameter j: the literal's value under the
      parameter's stripped name, against the type the parameter map gives that name,
      at path `.name`. */
  function EntryOutcome(env: Env, scope: Scope, path: seq<PathStep>, cons: seq<CtorParam>, fields: seq<JsonField>, j: nat)
    : (r: JsonOutcome)
    requires JsonKeys(fields) == ParamNames(cons) && j < |cons|
    ensures var p := Strip(cons[j].name);
            p in JsonKeys(fields)
            && (r.Fail? ==> path + [Key(p)] <= r.path
                            && FaultAt(Follow(fields[Lookup(fields, p)].value, r.path[|path| + 1..]), r.fault))
    decreases fields, 0, |cons| - j, 0
  {
    var p := Strip(cons[j].name);
    assert p in ParamNames(cons);
    CheckValue(env, scope, path + [Key(p)], ParamsMap(cons)[p], fields[Lookup(fields, p)].value)
  }

  /** checkInstance: an object or an array literal is checked as such; a leaf is
      checked as an expression, whose type must equal the expected type. */
  function CheckValue(env: Env, scope: Scope, path: seq<PathStep>, ty: Ty, v: JsonValue): (r: JsonOutcome)
    ensures r.Fail? ==> path <= r.path && FaultAt(Follow(v, r.path[|path|..]), r.fault)
    ensures v.Leaf? ==> (r.Pass? <==> Check(env, scope, v.e) == Ok(ty)) && (r.Fail? ==> r.path == path)
    decreases v
  {
    match v
    case Obj(fs) => CheckObject(env, scope, path, ty, fs)
    case Arr(es) => CheckArray(env, scope, path, ty, es)
    case Leaf(e) =>
      assert path[|path|..] == [];
      match Check(env, scope, e)
      case Err(m) => Fail(path, LeafError(m))
      case Ok(t) => if ty != t then Fail(path, LeafMismatch) else Pass
  }

  /** One pass of the parameter loop: it goes on past parameter j exactly when
      parameter j's value passes. */
  lemma CheckEntriesStep(env: Env, scope: Scope, path: seq<PathStep>, cons: seq<CtorParam>,
                         fields: seq<JsonField>, j: nat)
    requires JsonKeys(fields) == ParamNames(cons) && j < |cons|
    ensures var here := EntryOutcome(env, scope, path, cons, fields, j);
            CheckEntries(env, scope, path, cons, fields, j)
            == if here.Pass? then CheckEntries(env, scope, path, cons, fields, j + 1) else here
  {
  }

  /** The outcome of every parameter's value, in parameter order. */
  ghost function EntryOutcomes(env: Env, scope: Scope, path: seq<PathStep>, cons: seq<CtorParam>, fields: seq<JsonField>)
    : (os: seq<JsonOutcome>)
    requires JsonKeys(fields) == ParamNames(cons)
    ensures |os| == |cons| && forall k {:trigger os[k]} :: 0 <= k < |cons| ==> os[k] == EntryOutcome(env, scope, path, cons, fields, k)
  {
    seq(|cons|, k requires 0 <= k < |cons| && JsonKeys(fields) == ParamNames(cons) =>
                  EntryOutcome(env, scope, path, cons, fields, k))
  }

  /** The first failing outcome from j on, or Pass when there is none. */
  function FirstFailure(os: seq<JsonOutcome>, j: nat): JsonOutcome
    requires j <= |os|
    decreases |os| - j
  {
    if j == |os| then Pass else if os[j].Pass? then FirstFailure(os, j + 1) else os[j]
  }

  /** There is no first failure exactly when every outcome from j on passes. */
  lemma {:induction false} FirstFailurePass(os: seq<JsonOutcome>, j: nat)
    requires j <= |os|
    ensures FirstFailure(os, j).Pass? <==> forall k :: j <= k < |os| ==> os[k].Pass?
    decreases |os| - j
  {
    if j < |os| {
      FirstFailurePass(os, j + 1);
    }
  }

  /** A run of loop results: each hands on to the next after a passing outcome and
      stops at a failing one, and the run passes at its end. */
  predicate IsRun(os: seq<JsonOutcome>, rs: seq<JsonOutcome>)
  {
    |rs| == |os| + 1 && rs[|os|] == Pass
    && forall i :: 0 <= i < |os| ==> rs[i] == if os[i].Pass? then rs[i + 1] else os[i]
  }

  /** A run's result from j is the first failure from j. */
  lemma {:induction false} FirstFailureOfRun(os: seq<JsonOutcome>, rs: seq<JsonOutcome>, j: nat)
    requires IsRun(os, rs) && j <= |os|
    ensures rs[j] == FirstFailure(os, j)
    decreases |os| - j
  {
    if j < |os| {
      FirstFailureOfRun(os, rs, j + 1);
    }
  }

  /** The result of the parameter loop from every index, the end included. */
  ghost function EntryRun(env: Env, scope: Scope, path: seq<PathStep>, cons: seq<CtorParam>, fields: seq<JsonField>)
    : (rs: seq<JsonOutcome>)
    requires JsonKeys(fields) == ParamNames(cons)
    ensures |rs| == |cons| + 1
            && forall i {:trigger rs[i]} :: 0 <= i <= |cons| ==> rs[i] == CheckEntries(env, scope, path, cons, fields, i)
  {
    seq(|cons| + 1, i requires 0 <= i <= |cons| && JsonKeys(fields) == ParamNames(cons) =>
                      CheckEntries(env, scope, path, cons, fields, i))
  }

  /** The parameter loop's results are a run over the parameters' outcomes. */
  lemma EntryRunIsRun(env: Env, scope: Scope, path: seq<PathStep>, cons: seq<CtorParam>, fields: seq<JsonField>)
    requires JsonKeys(fields) == ParamNames(cons)
    ensures IsRun(EntryOutcomes(env, scope, path, cons, fields), EntryRun(env, scope, path, cons, fields))
  {
    var os := EntryOutcomes(env, scope, path, cons, fields);
    var rs := EntryRun(env, scope, path, cons, fields);
    forall i | 0 <= i < |cons|
      ensures rs[i] == if os[i].Pass? then rs[i + 1] else os[i]
    {
      CheckEntriesStep(env, scope, path, cons, fields, i);
    }
  }

  /** The parameter loop from j yields the first failing parameter value from j on. */
  lemma CheckEntriesFirstFailure(env: Env, scope: Scope, path: seq<PathStep>, cons: seq<CtorParam>,
                                 fields: seq<JsonField>, j: nat)
    requires JsonKeys(fields) == ParamNames(cons) && j <= |cons|
    ensures CheckEntries(env, scope, path, cons, fields, j) == FirstFailure(EntryOutcomes(env, scope, path, cons, fields), j)
  {
    var os := EntryOutcomes(env, scope, path, cons, fields);
    var rs := EntryRun(env, scope, path, cons, fields);
    EntryRunIsRun(env, scope, path, cons, fields);
    FirstFailureOfRun(os, rs, j);
    assert rs[j] == CheckEntries(env, scope, path, cons, fields, j);
  }

  /** The parameter loop passes exactly when the value of every parameter from j on
      passes. */
  lemma CheckEntriesPass(env: Env, scope: Scope, path: seq<PathStep>, cons: seq<CtorParam>,
                         fields: seq<JsonField>, j: nat)
    requires JsonKeys(fields) == ParamNames(cons) && j <= |cons|
    ensures CheckEntries(env, scope, path, cons, fields, j).Pass? <==>
              forall k :: j <= k < |cons| ==> EntryOutcome(env, scope, path, cons, fields, k).Pass?
  {
    var os := EntryOutcomes(env, scope, path, cons, fields);
    CheckEntriesFirstFailure(env, scope, path, cons, fields, j);
    FirstFailurePass(os, j);
    if CheckEntries(env, scope, path, cons, fields, j).Pass? {
      forall k | j <= k < |cons|
        ensures EntryOutcome(env, scope, path, cons, fields, k).Pass?
      {
        assert os[k].Pass?;
      }
    } else {
      var k :| j <= k < |os| && !os[k].Pass?;
      assert !EntryOutcome(env, scope, path, cons, fields, k).Pass?;
    }
  }

  /** checkObject passes exactly when the type has a constructor, the literal's keys
      are its stripped parameter names, and every parameter's value passes at
      `.name` against its parameter type; missing and extra keys both fail. */
  lemma ObjectRule(env: Env, scope: Scope, path: seq<PathStep>, ty: Ty, fields: seq<JsonField>)
    ensures CheckObject(env, scope, path, ty, fields).Pass? <==>
              Constructor(ty).Some? && JsonKeys(fields) == ParamNames(Constructor(ty).value)
              && forall k :: 0 <= k < |Constructor(ty).value| ==>
                   EntryOutcome(env, scope, path, Constructor(ty).value, fields, k).Pass?
  {
    if Constructor(ty).Some? && JsonKeys(fields) == ParamNames(Constructor(ty).value) {
      CheckEntriesPass(env, scope, path, Constructor(ty).value, fields, 0);
    }
  }

  /** checkArray: the type must be an array type; each element is checked against
      its element type at path `[i]`. */
  function CheckArray(env: Env, scope: Scope, path: seq<PathStep>, ty: Ty, elems: seq<JsonValue>): (r: JsonOutcome)
    ensures ElementType(ty).None? ==> r == Fail(path, NotArray)
    ensures r.Fail? ==> path <= r.path && FaultAt(Follow(Arr(elems), r.path[|path|..]), r.fault)
    decreases elems, 1
  {
    match ElementType(ty)
    case None =>
      assert path[|path|..] == [];
      Fail(path, NotArray)
    case Some(elem) => CheckElems(env, scope, path, elem, elems, 0)
  }

  function CheckElems(env: Env, scope: Scope, path: seq<PathStep>, elem: Ty, elems: seq<JsonValue>, i: nat)
    : (r: JsonOutcome)
    requires i <= |elems|
    ensures r.Fail? ==> path <= r.path && FaultAt(Follow(Arr(elems), r.path[|path|..]), r.fault)
    decreases elems, 0, |elems| - i
  {
    if i == |elems| then Pass
    else
      var sub := path + [Index(i)];
      match CheckValue(env, scope, sub, elem, elems[i])
      case Pass => CheckElems(env, scope, path, elem, elems, i + 1)
      case Fail(fp, fault) =>
        assert fp[|path|..] == [Index(i)] + fp[|sub|..] by {
          assert sub <= fp;
        }
        Fail(fp, fault)
  }

  /** The element loop passes exactly when every element from i on passes at `[i]`
      against the element type. */
  lemma {:induction false} CheckElemsPass(env: Env, scope: Scope, path: seq<PathStep>, elem: Ty, elems: seq<JsonValue>,
                                          i: nat)
    requires i <= |elems|
    ensures CheckElems(env, scope, path, elem, elems, i).Pass? <==>
              forall k :: i <= k < |elems| ==> CheckValue(env, scope, path + [Index(k)], elem, elems[k]).Pass?
    decreases |elems| - i
  {
    if i < |elems| {
      CheckElemsPass(env, scope, path, elem, elems, i + 1);
    }
  }

  /** checkArray passes exactly when the type is an array type and every element
      passes at `[i]` against its element type. */
  lemma ArrayRule(env: Env, scope: Scope, path: seq<PathStep>, ty: Ty, elems: seq<JsonValue>)
    ensures CheckArray(env, scope, path, ty, elems).Pass? <==>
              ElementType(ty).Some?
              && forall k :: 0 <= k < |elems| ==> CheckValue(env, scope, path + [Index(k)], ElementType(ty).value, elems[k]).Pass?
  {
    if ElementType(ty).Some? {
      CheckElemsPass(env, scope, path, ElementType(ty).value, elems, 0);
    }
  }

  /** Expr.typeInstance, asked after checking: the operand's type for a negation,
      the return type of the target's function type for an invocation, the written
      type for a JSON instance. */
  function TypeOf(env: Env, scope: Scope, e: Expr): (r: Result<Ty>)
    ensures e.IntegerLiteral? && r.Ok? ==> r.value == Int || r.value == Long
    ensures e.FunctionInvocation? && r.Ok? ==>
              TypeOf(env, scope, e.target).Ok? && TypeOf(env, scope, e.target).value.Func?
  {
    match e
    case IntegerLiteral(n, hint) => LiteralType(env, scope, n, hint)
    case NullLiteral(declared) => NullLiteralType(env, scope, declared)
    case Negative(x) => TypeOf(env, scope, x)
    case FunctionInvocation(target, _) =>
      var t :- TypeOf(env, scope, target);
      if t.Func? then Ok(t.desc.returnType) else Err("not a functional object")
    case NewInstanceWithJson(tref, _) => env.resolve(scope, tref)
    case OtherExpr(id) => env.otherExpr(scope, id)
  }

  /** After a successful check, typeInstance gives the type the check gave. */
  lemma {:induction false} TypeOfAgrees(env: Env, scope: Scope, e: Expr)
    requires Check(env, scope, e).Ok?
    ensures TypeOf(env, scope, e) == Check(env, scope, e)
  {
    match e
    case Negative(x) => TypeOfAgrees(env, scope, x);
    case FunctionInvocation(target, _) => TypeOfAgrees(env, scope, target);
    case _ =>
  }

  /** IntegerLiteral: Long if the hint resolves to Long; otherwise Long exactly for a
      long literal, else Int. Without a hint the literal always checks. */
  lemma IntegerLiteralType(env: Env, scope: Scope, n: JNumber, hint: Option<TypeRef>)
    ensures var r := Check(env, scope, IntegerLiteral(n, hint));
            (r.Ok? ==> r.value == Int || r.value == Long)
            && (hint.None? ==> r == if n.JLong? then Ok(Long) else Ok(Int))
            && (hint.Some? && env.resolve(scope, hint.value) == Ok(Long) ==> r == Ok(Long))
            && (r == Ok(Long) <==>
                  (hint.Some? && env.resolve(scope, hint.value) == Ok(Long))
                  || ((hint.None? || env.resolve(scope, hint.value).Ok?) && n.JLong?))
  {
  }

  /** NullLiteral: an untyped null has NullType, a typed one its declared type. */
  lemma NullLiteralTyping(env: Env, scope: Scope, declared: Option<TypeRef>)
    ensures declared.None? ==> Check(env, scope, NullLiteral(declared)) == Ok(Null)
    ensures declared.Some? ==> Check(env, scope, NullLiteral(declared)) == env.resolve(scope, declared.value)
  {
  }

  /** Negative: checks exactly when the operand checks to a numeric type, and then
      has the operand's type, at check time and afterwards. */
  lemma NegativeTyping(env: Env, scope: Scope, x: Expr)
    ensures Check(env, scope, Negative(x)).Ok? <==> Check(env, scope, x).Ok? && IsNumeric(Check(env, scope, x).value)
    ensures Check(env, scope, Negative(x)).Ok? ==>
              Check(env, scope, Negative(x)) == Check(env, scope, x) == TypeOf(env, scope, Negative(x))
  {
    if Check(env, scope, Negative(x)).Ok? {
      TypeOfAgrees(env, scope, x);
    }
  }

  /** The argument loop succeeds exactly when every argument from i on checks and is
      assignable to its parameter. */
  lemma {:induction false} CheckArgsAll(env: Env, scope: Scope, args: seq<Expr>, params: seq<ParamInstance>, i: nat)
    requires |params| == |args| && i <= |args|
    ensures CheckArgs(env, scope, args, params, i).Ok? <==>
              forall k :: i <= k < |args| ==>
                Check(env, scope, args[k]).Ok? && env.assignable(params[k].ty, Check(env, scope, args[k]).value)
    decreases |args| - i
  {
    if i < |args| {
      CheckArgsAll(env, scope, args, params, i + 1);
    }
  }

  /** On failure the loop stops at the first bad argument k: every argument before k
      checked and was assignable, and the error is k's own checking error or the
      mismatch message naming index k. */
  lemma {:induction false} CheckArgsFirstFailure(env: Env, scope: Scope, args: seq<Expr>, params: seq<ParamInstance>, i: nat)
    requires |params| == |args| && i <= |args|
    requires CheckArgs(env, scope, args, params, i).Err?
    ensures exists k :: i <= k < |args| &&
              (forall m :: i <= m < k ==>
                 Check(env, scope, args[m]).Ok? && env.assignable(params[m].ty, Check(env, scope, args[m]).value))
              && (if Check(env, scope, args[k]).Err?
                  then CheckArgs(env, scope, args, params, i).msg == Check(env, scope, args[k]).msg
                  else !env.assignable(params[k].ty, Check(env, scope, args[k]).value)
                       && CheckArgs(env, scope, args, params, i).msg == ArgMismatch(k))
    decreases |args| - i
  {
    var t := Check(env, scope, args[i]);
    if t.Err? || !env.assignable(params[i].ty, t.value) {
    } else {
      CheckArgsFirstFailure(env, scope, args, params, i + 1);
      var k :| i + 1 <= k < |args| &&
        (forall m :: i + 1 <= m < k ==>
           Check(env, scope, args[m]).Ok? && env.assignable(params[m].ty, Check(env, scope, args[m]).value))
        && (if Check(env, scope, args[k]).Err?
            then CheckArgs(env, scope, args, params, i + 1).msg == Check(env, scope, args[k]).msg
            else !env.assignable(params[k].ty, Check(env, scope, args[k]).value)
                 && CheckArgs(env, scope, args, params, i + 1).msg == ArgMismatch(k));
      assert i <= k;
    }
  }

  /** FunctionInvocation.check: the target must have a function type, the argument
      count must equal the parameter count, and every argument must check and be
      assignable to its parameter; the invocation then has the return type. */
  lemma InvocationTyping(env: Env, scope: Scope, target: Expr, args: seq<Expr>)
    ensures var r := Check(env, scope, FunctionInvocation(target, args));
            var t := Check(env, scope, target);
            (r.Ok? <==> t.Ok? && t.value.Func? && |t.value.desc.params| == |args|
                        && forall k :: 0 <= k < |args| ==>
                             Check(env, scope, args[k]).Ok?
                             && env.assignable(t.value.desc.params[k].ty, Check(env, scope, args[k]).value))
            && (r.Ok? ==> r.value == t.value.desc.returnType)
            && (t.Ok? && !t.value.Func? ==> r.Err?)
  {
    var t := Check(env, scope, target);
    if t.Ok? && t.value.Func? && |t.value.desc.params| == |args| {
      CheckArgsAll(env, scope, args, t.value.desc.params, 0);
    }
  }

  /** NewInstanceWithJson: the written type must resolve, the literal must pass
      checkObject from `$`, and its lowering must succeed; the expression then has
      the written type. A failure of checkObject is reported with the spelled-out
      path to a place that exists in the literal. */
  lemma JsonInstanceTyping(env: Env, scope: Scope, tref: TypeRef, json: seq<JsonField>)
    ensures var r := Check(env, scope, NewInstanceWithJson(tref, json));
            var t := env.resolve(scope, tref);
            (r.Ok? <==> t.Ok? && CheckObject(env, scope, [], t.value, json).Pass?
                        && LowerObject(t.value, None, json, env.counterAt(NewInstanceWithJson(tref, json))).Ok?)
            && (r.Ok? ==> r == t)
            && (t.Ok? && CheckObject(env, scope, [], t.value, json).Fail? ==>
                  var o := CheckObject(env, scope, [], t.value, json);
                  r == Err(FaultMessage(o.path, o.fault)) && FaultAt(Follow(Obj(json), o.path), o.fault))
  {
    var e := NewInstanceWithJson(tref, json);
    var t := env.resolve(scope, tref);
    if t.Ok? {
      var o := CheckObject(env, scope, [], t.value, json);
      var l := LowerObject(t.value, None, json, env.counterAt(e));
      assert Check(env, scope, e) ==
               if o.Fail? then Err(FaultMessage(o.path, o.fault)) else if l.Err? then Err(l.msg) else Ok(t.value);
      if o.Fail? {
        assert o.path[0..] == o.path;
      }
    }
  }

  // ---------------------------------------------------------------------------
  // Statements

  /** functionTerminationCheck: a throw always terminates, a template instantiation
      never; an error-handling statement terminates when some statement of its error
      branch and some statement of its else branch terminate. */
  function Terminates(s: Stmt): (r: bool)
    ensures s.Throw? ==> r
    ensures s.TemplateTypeInstantiation? ==> !r
    ensures s.ErrorHandling? ==>
              (r <==> (exists i :: 0 <= i < |s.errorCode| && Terminates(s.errorCode[i]))
                      && (exists i :: 0 <= i < |s.elseCode| && Terminates(s.elseCode[i])))
    ensures s.ErrorHandling? && s.elseCode == [] ==> !r
    decreases s, 1
  {
    match s
    case Throw(_) => true
    case ErrorHandling(_, errorCode, elseCode) => AnyTerminates(errorCode) && AnyTerminates(elseCode)
    case TemplateTypeInstantiation(_, _, _) => false
    case OtherStmt(_, terminates) => terminates
  }

  /** The flag loops over a statement list: whether some statement terminates. */
  function AnyTerminates(ss: seq<Stmt>): (r: bool)
    ensures r <==> exists i :: 0 <= i < |ss| && Terminates(ss[i])
    decreases ss, 0
  {
    if ss == [] then false
    else
      assert forall i :: 0 < i < |ss| ==> ss[i] == ss[1..][i - 1];
      Terminates(ss[0]) || AnyTerminates(ss[1..])
  }

  /** The scope of the error branch: a child of the enclosing scope holding the
      immutable variable `err` of error type at position (0, 0). */
  function ErrorScope(s: Scope): (r: Scope)
    ensures r.parent == Some(s) && r.types == map[]
    ensures r.vars == map["err" := Variable("err", Error, false, MemPos(0, 0))]
  {
    var c := Child(s);
    c.(vars := c.vars["err" := Variable("err", Error, false, MemPos(0, 0))])
  }

  /** The number of type parameters of a template type, None for other types. */
  function TypeParameterCount(t: Ty): Option<nat>
  {
    if t.Composite? then t.typeParams else None
  }

  /** Resolving a list of written types in order; the first failure is the error. */
  function ResolveAll(env: Env, scope: Scope, refs: seq<TypeRef>): (r: Result<seq<Ty>>)
    ensures r.Ok? <==> forall i :: 0 <= i < |refs| ==> env.resolve(scope, refs[i]).Ok?
    ensures r.Ok? ==> |r.value| == |refs| && forall i :: 0 <= i < |refs| ==> env.resolve(scope, refs[i]) == Ok(r.value[i])
  {
    if refs == [] then Ok([])
    else
      var t :- env.resolve(scope, refs[0]);
      var rest :- ResolveAll(env, scope, refs[1..]);
      assert forall i :: 0 < i < |refs| ==> refs[i] == refs[1..][i - 1];
      Ok([t] + rest)
  }

  /** The checks of TemplateTypeInstantiation.checkAST before it changes the scope:
      the name must be new in this scope, the template must be a template type
      given as many type parameters as it declares, and `concrete` must succeed;
      the result is the instantiated type. */
  function Instantiate(env: Env, scope: Scope, name: string, templ: TypeRef, params: seq<TypeRef>): Result<Ty>
  {
    if name in scope.types then Err("type `" + name + "` is already defined")
    else
      var tt :- env.resolve(scope, templ);
      if TypeParameterCount(tt).None? then Err("type is not a template class")
      else
        var ps :- ResolveAll(env, scope, params);
        if TypeParameterCount(tt).value != |ps| then
          Err("template type and the type parameters provided differ in number")
        else
          var c := env.concrete(scope, name, tt, ps);
          if c.Err? then Err("constructing concrete type " + name + " failed: " + c.msg)
          else Ok(c.value)
  }

  /** instantiatedTypeInstance of a template instantiation after checkAST, on a node
      not checked before: the instantiated type when the check succeeded, and still
      null when it threw. */
  function InstantiatedTypeInstance(env: Env, scope: Scope, s: Stmt): Option<Ty>
    requires s.TemplateTypeInstantiation?
  {
    var r := Instantiate(env, scope, s.typeName, s.templateType, s.typeParams);
    if r.Ok? then Some(r.value) else None
  }

  /** Statement.checkAST: the scope after the statement, or the checking error. */
  function CheckStmt(env: Env, scope: Scope, s: Stmt): (r: Result<Scope>)
    ensures s.Throw? && r.Ok? ==> r.value == scope
    ensures s.ErrorHandling? && r.Ok? ==> r == CheckStatements(env, scope, s.tryCode)
    ensures s.TemplateTypeInstantiation? && r.Ok? ==>
              s.typeName !in scope.types && r.value.types.Keys == scope.types.Keys + {s.typeName}
              && r.value.vars == scope.vars && r.value.parent == scope.parent
    decreases s, 1
  {
    match s
    case Throw(operand) =>
      if operand.None? then Ok(scope)
      else
        var t :- Check(env, scope, operand.value);
        if t == Str || t == Null || t == Error then Ok(scope)
        else Err("throw statement expects string or null or error object")
    case ErrorHandling(tryCode, errorCode, elseCode) =>
      var afterTry :- CheckStatements(env, scope, tryCode);
      var _ :- CheckStatements(env, ErrorScope(afterTry), errorCode);
      var _ :- CheckStatements(env, Child(afterTry), elseCode);
      if AnyTerminates(tryCode) && elseCode != [] then
        Err("the code to be handled already terminates the function, no `else` should appear")
      else Ok(afterTry)
    case TemplateTypeInstantiation(name, templ, params) =>
      var ti :- Instantiate(env, scope, name, templ, params);
      Ok(AddType(scope, name, ti))
    case OtherStmt(id, _) => env.otherStmt(scope, id)
  }

  /** TypeContext.checkStatements: the statements checked in order, each in the scope
      the previous one left; the first error stops the check. */
  function CheckStatements(env: Env, scope: Scope, ss: seq<Stmt>): (r: Result<Scope>)
    ensures ss == [] ==> r == Ok(scope)
    ensures ss != [] && r.Ok? ==> CheckStmt(env, scope, ss[0]).Ok?
    decreases ss, 0
  {
    if ss == [] then Ok(scope)
    else
      var next :- CheckStmt(env, scope, ss[0]);
      CheckStatements(env, next, ss[1..])
  }

  /** Checking a list in two parts is checking the first part and then the second
      in the scope it leaves. */
  lemma {:induction false} CheckStatementsAppend(env: Env, scope: Scope, a: seq<Stmt>, b: seq<Stmt>)
    ensures CheckStatements(env, scope, a + b) ==
              match CheckStatements(env, scope, a)
              case Err(m) => Err(m)
              case Ok(s) => CheckStatements(env, s, b)
    decreases |a|
  {
    if a != [] {
      assert (a + b)[0] == a[0];
      assert (a + b)[1..] == a[1..] + b;
      match CheckStmt(env, scope, a[0])
      case Err(_) =>
      case Ok(next) =>
        assert CheckStatements(env, scope, a + b) == CheckStatements(env, next, a[1..] + b);
        assert CheckStatements(env, scope, a) == CheckStatements(env, next, a[1..]);
        CheckStatementsAppend(env, next, a[1..], b);
    } else {
      assert a + b == b;
    }
  }

  /** A list that checks checks in every prefix, and the rest of the list checks
      from the scope the prefix leaves to the same final scope. */
  lemma CheckStatementsPrefix(env: Env, scope: Scope, ss: seq<Stmt>, i: nat)
    requires CheckStatements(env, scope, ss).Ok? && i <= |ss|
    ensures CheckStatements(env, scope, ss[..i]).Ok?
    ensures CheckStatements(env, CheckStatements(env, scope, ss[..i]).value, ss[i..]) == CheckStatements(env, scope, ss)
  {
    assert ss[..i] + ss[i..] == ss;
    CheckStatementsAppend(env, scope, ss[..i], ss[i..]);
  }

  /** ThrowStatement.checkAST: with no operand it always checks; an operand must
      check to String, Null or Error type. The scope is left unchanged. */
  lemma ThrowRule(env: Env, scope: Scope, operand: Option<Expr>)
    ensures var r := CheckStmt(env, scope, Throw(operand));
            (operand.None? ==> r == Ok(scope))
            && (operand.Some? ==>
                  (r.Ok? <==> Check(env, scope, operand.value).Ok?
                              && Check(env, scope, operand.value).value in {Str, Null, Error}))
            && (r.Ok? ==> r.value == scope)
  {
  }

  /** ErrorHandlingStatement.checkAST: the try code is checked in the enclosing
      scope itself, the error code in a child scope that declares `err`, the else
      code in a plain child scope; a terminating try with a non-empty else branch is
      an error; the scope that follows is the one the try code left. */
  lemma ErrorHandlingRule(env: Env, scope: Scope, tryCode: seq<Stmt>, errorCode: seq<Stmt>, elseCode: seq<Stmt>)
    ensures var r := CheckStmt(env, scope, ErrorHandling(tryCode, errorCode, elseCode));
            var t := CheckStatements(env, scope, tryCode);
            (r.Ok? <==> t.Ok? && CheckStatements(env, ErrorScope(t.value), errorCode).Ok?
                        && CheckStatements(env, Child(t.value), elseCode).Ok?
                        && !((exists i :: 0 <= i < |tryCode| && Terminates(tryCode[i])) && elseCode != []))
            && (r.Ok? ==> r == t)
  {
    var r := CheckStmt(env, scope, ErrorHandling(tryCode, errorCode, elseCode));
    var t := CheckStatements(env, scope, tryCode);
    var terminating := AnyTerminates(tryCode);
    if t.Ok? {
      var e := CheckStatements(env, ErrorScope(t.value), errorCode);
      var o := CheckStatements(env, Child(t.value), elseCode);
      assert r.Ok? <==> e.Ok? && o.Ok? && !(terminating && elseCode != []);
    }
  }

  /** TemplateTypeInstantiation.checkAST: a name already defined in this scope, a
      non-template, an arity mismatch and a failing `concrete` are errors; success
      sets instantiatedTypeInstance to the concrete type and adds exactly the one
      binding from the name to it. */
  lemma TemplateRule(env: Env, scope: Scope, name: string, templ: TypeRef, params: seq<TypeRef>)
    ensures var s := TemplateTypeInstantiation(name, templ, params);
            var r := CheckStmt(env, scope, s);
            (r.Ok? <==> InstantiatedTypeInstance(env, scope, s).Some?)
            && (r.Err? ==> r == Err(Instantiate(env, scope, name, templ, params).msg))
            && (r.Ok? ==> r.value.types[name] == InstantiatedTypeInstance(env, scope, s).value)
            && (name in scope.types ==> r.Err?)
            && ((name !in scope.types && env.resolve(scope, templ).Ok?
                 && TypeParameterCount(env.resolve(scope, templ).value).None?) ==> r.Err?)
            && (r.Ok? ==>
                  var tt := env.resolve(scope, templ).value;
                  var ps := ResolveAll(env, scope, params).value;
                  name !in scope.types
                  && TypeParameterCount(tt) == Some(|params|)
                  && env.concrete(scope, name, tt, ps).Ok?
                  && r.value.types == scope.types[name := env.concrete(scope, name, tt, ps).value]
                  && r.value.types.Keys == scope.types.Keys + {name}
                  && r.value.vars == scope.vars && r.value.parent == scope.parent)
  {
  }
}
