/** Instruction selection of the embedded language (generateInstruction of the
    literal, negation, invocation, throw, error-handling and template-instantiation
    nodes). Each node is lowered in the scope it was checked in; a JSON instance
    gives the instruction list JsonLowering makes while it is checked. */
module PlLowering {
  import opened Wrappers
  import opened PlTypes
  import opened PlSyntax
  import opened PlInst
  import opened JsonLowering
  import opened PlAst

  /** The number a literal carries. */
  function NumberValue(n: JNumber): int
  {
    if n.JInt? then n.i else n.l
  }

  /** The negation instruction for an operand kind; other kinds are unsupported. */
  function NegativeFor(t: Ty, v: Inst): Result<Inst>
  {
    match t
    case Int => Ok(NegativeInt(v))
    case Long => Ok(NegativeLong(v))
    case Float => Ok(NegativeFloat(v))
    case Double => Ok(NegativeDouble(v))
    case _ => Err("unsupported operation")
  }

  /** Whether an instruction is one of the four negations. */
  predicate IsNegation(i: Inst)
  {
    i.NegativeInt? || i.NegativeLong? || i.NegativeFloat? || i.NegativeDouble?
  }

  /** generateInstruction of an expression checked in scope. A JSON instance gives
      the composite of the instruction list its check made from the type context's
      counter. A failure is an exception the source would throw (an unsupported
      negation, a missing function descriptor, a lowering that fails). Each kind of
      node lowers to its own kind of instruction. */
  function Generate(env: Env, scope: Scope, e: Expr): (r: Result<Inst>)
    ensures r.Ok? ==> (e.IntegerLiteral? <==> r.value.LiteralInt? || r.value.LiteralLong?)
    ensures r.Ok? ==> (e.NullLiteral? <==> r.value.LiteralNull?)
    ensures r.Ok? ==> (e.Negative? <==> IsNegation(r.value))
    ensures r.Ok? ==> (e.FunctionInvocation? <==> r.value.Invoke?)
    ensures r.Ok? ==> (e.NewInstanceWithJson? <==> r.value.CompositeInst?)
    decreases e, 1
  {
    match e
    case IntegerLiteral(n, hint) =>
      if LiteralType(env, scope, n, hint) == Ok(Long) then Ok(LiteralLong(NumberValue(n)))
      else Ok(LiteralInt(NumberValue(n)))
    case NullLiteral(_) => Ok(LiteralNull)
    case Negative(x) =>
      var v :- Generate(env, scope, x);
      var t :- TypeOf(env, scope, x);
      NegativeFor(t, v)
    case FunctionInvocation(target, args) =>
      var argInsts :- GenerateAll(env, scope, args);
      var t :- TypeOf(env, scope, target);
      if !t.Func? then Err("not a functional object")
      else
        var f :- Generate(env, scope, target);
        Ok(Invoke(f, argInsts, t.desc))
    case NewInstanceWithJson(tref, json) =>
      var t :- env.resolve(scope, tref);
      var l :- LowerObject(t, None, json, env.counterAt(e));
      Ok(CompositeInst(l.insts))
    case OtherExpr(id) => Ok(OtherInst(id))
  }

  /** `args.map { it.generateInstruction() }`: element-wise and in order. */
  function GenerateAll(env: Env, scope: Scope, es: seq<Expr>): (r: Result<seq<Inst>>)
    ensures r.Ok? <==> forall i :: 0 <= i < |es| ==> Generate(env, scope, es[i]).Ok?
    ensures r.Ok? ==> |r.value| == |es|
    ensures r.Ok? ==> forall i :: 0 <= i < |es| ==> Generate(env, scope, es[i]) == Ok(r.value[i])
    decreases es, 0
  {
    if es == [] then Ok([])
    else
      assert forall i :: 0 < i < |es| ==> es[i] == es[1..][i - 1];
      var first :- Generate(env, scope, es[0]);
      var rest :- GenerateAll(env, scope, es[1..]);
      Ok([first] + rest)
  }

  /** Every expression that checks can be lowered. */
  lemma {:induction false} GenerateSucceeds(env: Env, scope: Scope, e: Expr)
    requires Check(env, scope, e).Ok?
    ensures Generate(env, scope, e).Ok?
  {
    match e
    case Negative(x) =>
      GenerateSucceeds(env, scope, x);
      TypeOfAgrees(env, scope, x);
    case FunctionInvocation(target, args) =>
      GenerateSucceeds(env, scope, target);
      TypeOfAgrees(env, scope, target);
      InvocationTyping(env, scope, target, args);
      forall k | 0 <= k < |args| ensures Generate(env, scope, args[k]).Ok? {
        GenerateSucceeds(env, scope, args[k]);
      }
    case _ =>
  }

  /** Negative: the instruction matches the operand's kind exactly; after a
      successful check the unsupported case cannot arise. */
  lemma NegativeLowering(env: Env, scope: Scope, x: Expr)
    requires Check(env, scope, Negative(x)).Ok?
    ensures var t := Check(env, scope, x).value;
            var r := Generate(env, scope, Negative(x));
            var v := Generate(env, scope, x);
            r.Ok? && v.Ok?
            && (t == Int <==> r.value == NegativeInt(v.value))
            && (t == Long <==> r.value == NegativeLong(v.value))
            && (t == Float <==> r.value == NegativeFloat(v.value))
            && (t == Double <==> r.value == NegativeDouble(v.value))
  {
    GenerateSucceeds(env, scope, x);
    TypeOfAgrees(env, scope, x);
  }

  /** IntegerLiteral: LiteralLong exactly when the literal's type is Long, else
      LiteralInt, carrying the literal's number. NullLiteral: always LiteralNull,
      whatever type was declared. */
  lemma LiteralLowering(env: Env, scope: Scope, n: JNumber, hint: Option<TypeRef>,
                        declared: Option<TypeRef>)
    ensures var r := Generate(env, scope, IntegerLiteral(n, hint));
            r.Ok? && (r.value.LiteralLong? <==> Check(env, scope, IntegerLiteral(n, hint)) == Ok(Long))
            && (r.value.LiteralLong? || r.value.LiteralInt?)
            && r.value == (if r.value.LiteralLong? then LiteralLong(NumberValue(n)) else LiteralInt(NumberValue(n)))
    ensures Generate(env, scope, NullLiteral(declared)) == Ok(LiteralNull)
  {
  }

  /** NewInstanceWithJson: a checked instance lowers to the composite of exactly the
      list the object overload makes for its written type from the counter its
      check saw, so the properties of JsonLowering are those of what runs. */
  lemma JsonInstanceLowering(env: Env, scope: Scope, tref: TypeRef, json: seq<JsonField>)
    requires Check(env, scope, NewInstanceWithJson(tref, json)).Ok?
    ensures var e := NewInstanceWithJson(tref, json);
            var t := Check(env, scope, e).value;
            var l := LowerObject(t, None, json, env.counterAt(e));
            l.Ok? && Generate(env, scope, e) == Ok(CompositeInst(l.value.insts))
            && |l.value.insts| >= 1 && l.value.insts[|l.value.insts| - 1].Construct?
            && l.value.insts[|l.value.insts| - 1].ty == t
  {
    var e := NewInstanceWithJson(tref, json);
    JsonInstanceTyping(env, scope, tref, json);
    ObjectLowering(Check(env, scope, e).value, None, json, env.counterAt(e));
  }

  /** Statement.generateInstruction in the scope the statement was checked in; each
      kind of statement lowers to its own kind of instruction. */
  function GenerateStmt(env: Env, scope: Scope, s: Stmt): (r: Result<Inst>)
    ensures r.Ok? ==> (s.Throw? <==> r.value.ThrowInst?)
    ensures r.Ok? ==> (s.ErrorHandling? <==> r.value.ErrorHandlingInst?)
    ensures r.Ok? ==> (s.TemplateTypeInstantiation? <==> r.value.NoOp?)
    ensures r.Ok? && s.Throw? ==> (s.operand.None? <==> r.value.operand.None?)
    decreases s, 1
  {
    match s
    case Throw(operand) =>
      if operand.None? then Ok(ThrowInst(None))
      else
        var v :- Generate(env, scope, operand.value);
        Ok(ThrowInst(Some(v)))
    case ErrorHandling(tryCode, errorCode, elseCode) =>
      var afterTry :- CheckStatements(env, scope, tryCode);
      var t :- GenerateStatements(env, scope, tryCode);
      var e :- GenerateStatements(env, ErrorScope(afterTry), errorCode);
      var o :- GenerateStatements(env, Child(afterTry), elseCode);
      Ok(ErrorHandlingInst(t, e, o))
    case TemplateTypeInstantiation(_, _, _) => Ok(NoOp)
    case OtherStmt(id, _) => Ok(OtherInst(id))
  }

  /** A statement list lowered element-wise and in order, each statement in the scope
      it was checked in (the scope the statements before it left). */
  function GenerateStatements(env: Env, scope: Scope, ss: seq<Stmt>)
    : (r: Result<seq<Inst>>)
    ensures r.Ok? ==> |r.value| == |ss|
    ensures r.Ok? && ss != [] ==> Ok(r.value[0]) == GenerateStmt(env, scope, ss[0])
    decreases ss, 0
  {
    if ss == [] then Ok([])
    else
      var first :- GenerateStmt(env, scope, ss[0]);
      var next :- CheckStmt(env, scope, ss[0]);
      var rest :- GenerateStatements(env, next, ss[1..]);
      Ok([first] + rest)
  }

  /** Every statement and statement list that checks can be lowered, and a list
      lowers to one instruction per statement. */
  lemma {:induction false} StmtLoweringSucceeds(env: Env, scope: Scope, s: Stmt)
    requires CheckStmt(env, scope, s).Ok?
    ensures GenerateStmt(env, scope, s).Ok?
    decreases s, 1
  {
    match s
    case Throw(operand) =>
      if operand.Some? {
        GenerateSucceeds(env, scope, operand.value);
      }
    case ErrorHandling(tryCode, errorCode, elseCode) =>
      var afterTry := CheckStatements(env, scope, tryCode).value;
      StatementsLoweringSucceed(env, scope, tryCode);
      StatementsLoweringSucceed(env, ErrorScope(afterTry), errorCode);
      StatementsLoweringSucceed(env, Child(afterTry), elseCode);
    case _ =>
  }

  lemma {:induction false} StatementsLoweringSucceed(env: Env, scope: Scope, ss: seq<Stmt>)
    requires CheckStatements(env, scope, ss).Ok?
    ensures GenerateStatements(env, scope, ss).Ok?
    ensures |GenerateStatements(env, scope, ss).value| == |ss|
    decreases ss, 0
  {
    if ss != [] {
      var next := CheckStmt(env, scope, ss[0]).value;
      StmtLoweringSucceeds(env, scope, ss[0]);
      StatementsLoweringSucceed(env, next, ss[1..]);
    }
  }

  /** A lowered list holds, at each index i, the instruction of statement i lowered
      in the scope the statements before it left when checked. */
  lemma {:induction false} StatementsLoweringAt(env: Env, scope: Scope, ss: seq<Stmt>)
    requires GenerateStatements(env, scope, ss).Ok?
    ensures forall i :: 0 <= i < |ss| ==>
              CheckStatements(env, scope, ss[..i]).Ok?
              && GenerateStmt(env, CheckStatements(env, scope, ss[..i]).value, ss[i])
                 == Ok(GenerateStatements(env, scope, ss).value[i])
    decreases |ss|
  {
    if ss != [] {
      var r := GenerateStatements(env, scope, ss).value;
      var next := CheckStmt(env, scope, ss[0]).value;
      var rest := GenerateStatements(env, next, ss[1..]);
      assert r == [r[0]] + rest.value;
      StatementsLoweringAt(env, next, ss[1..]);
      forall i | 0 <= i < |ss|
        ensures CheckStatements(env, scope, ss[..i]).Ok?
        ensures GenerateStmt(env, CheckStatements(env, scope, ss[..i]).value, ss[i]) == Ok(r[i])
      {
        if i == 0 {
          assert ss[..0] == [];
        } else {
          var pre := ss[..i];
          assert pre[0] == ss[0] && pre[1..] == ss[1..][..i - 1];
          assert CheckStatements(env, scope, pre) == CheckStatements(env, next, ss[1..][..i - 1]);
          assert ss[i] == ss[1..][i - 1] && r[i] == rest.value[i - 1];
        }
      }
    }
  }

  /** ThrowStatement: ThrowInst carrying the operand's instruction, or none. Template
      instantiation: NoOp. ErrorHandlingStatement: one instruction holding the three
      lists, each lowered element-wise and in order, the try code in the enclosing
      scope, the error code in the scope declaring `err` and the else code in a
      plain child scope, both children of the scope the try code left. */
  lemma StatementLowering(env: Env, scope: Scope, s: Stmt)
    requires CheckStmt(env, scope, s).Ok?
    ensures var r := GenerateStmt(env, scope, s);
            r.Ok?
            && (s.Throw? && s.operand.None? ==> r.value == ThrowInst(None))
            && (s.Throw? && s.operand.Some? ==>
                  r.value == ThrowInst(Some(Generate(env, scope, s.operand.value).value)))
            && (s.TemplateTypeInstantiation? ==> r.value == NoOp)
            && (s.ErrorHandling? ==>
                  var afterTry := CheckStatements(env, scope, s.tryCode).value;
                  r.value.ErrorHandlingInst?
                  && |r.value.tryInsts| == |s.tryCode| && |r.value.errorInsts| == |s.errorCode|
                  && |r.value.elseInsts| == |s.elseCode|
                  && r.value.tryInsts == GenerateStatements(env, scope, s.tryCode).value
                  && r.value.errorInsts == GenerateStatements(env, ErrorScope(afterTry), s.errorCode).value
                  && r.value.elseInsts == GenerateStatements(env, Child(afterTry), s.elseCode).value)
  {
    StmtLoweringSucceeds(env, scope, s);
    if s.ErrorHandling? {
      var afterTry := CheckStatements(env, scope, s.tryCode).value;
      StatementsLoweringSucceed(env, scope, s.tryCode);
      StatementsLoweringSucceed(env, ErrorScope(afterTry), s.errorCode);
      StatementsLoweringSucceed(env, Child(afterTry), s.elseCode);
    } else if s.Throw? && s.operand.Some? {
      GenerateSucceeds(env, scope, s.operand.value);
    }
  }
}
