/** The interpreter of the embedded language (vjson/pl/Interpreter.kt): the host
    type libraries are laid out one after another in the root frame's memory, the
    program is checked once, and running it initiates the libraries' values and
    then runs the statements' instructions in order. */
module Interpreting {
  import opened Wrappers
  import opened PlTypes
  import opened PlSyntax
  import opened PlInst
  import opened PlRuntime
  import opened PlAst
  import opened PlLowering

  /** A host type library (Types), by identity. */
  datatype Library = Library(id: nat)

  /** What Types.initiateType leaves: the type context with the library's types
      added, and the memory offset after the library's own cells. */
  datatype Initiated = Initiated(scope: Scope, next: MemTotal)

  /** The behaviour of the code this model does not contain: a library's type and
      value initiation, the memory total the allocator reaches for a checked type
      context, and an instruction's effect on the root frame and on the registers of
      the run's value holder (an error is the formatted message of the
      InstructionException it threw). */
  datatype Host = Host(
    initiateType: (Library, Scope, MemTotal) -> Initiated,
    initiateValues: (Library, MemTotal, Option<MemState>, MemState) -> MemState,
    memoryTotal: Scope -> MemTotal,
    run: (Inst, RunState) -> Result<RunState>)

  /** What the statements share while they run: the root frame (cells and control
      flags) and the registers of the one Execution value holder. */
  datatype RunState = RunState(frame: FrameState, held: Held)

  /** Instruction.execute on the root frame: nothing runs once the frame is
      returning; otherwise the instruction's own effect. */
  function RunOne(host: Host, inst: Inst, s: RunState): Result<RunState>
  {
    if s.frame.returnImmediately then Ok(s) else host.run(inst, s)
  }

  /** The type context an interpreter starts from. */
  const RootScope: Scope := Scope(map[], map[], None)

  /** The layout of the first k libraries: the offset each starts at, the type
      context each is initiated in, and the context and offset after them. */
  datatype TypeLayout = TypeLayout(offsets: seq<MemTotal>, scopes: seq<Scope>, scope: Scope, total: MemTotal)

  function Layout(host: Host, types: seq<Library>, k: nat): (r: TypeLayout)
    requires k <= |types|
    ensures |r.offsets| == k && |r.scopes| == k
  {
    if k == 0 then TypeLayout([], [], RootScope, ZeroTotal)
    else
      var p := Layout(host, types, k - 1);
      var n := host.initiateType(types[k - 1], p.scope, p.total);
      TypeLayout(p.offsets + [p.total], p.scopes + [p.scope], n.scope, n.next)
  }

  /** The first library starts at offset zero in the root context; each next one
      starts at the offset, and in the context, the previous one's initiation left;
      the offsets and contexts before k do not depend on the libraries after. */
  lemma {:induction false} LayoutChain(host: Host, types: seq<Library>, k: nat)
    requires k <= |types|
    ensures var l := Layout(host, types, k);
            (k > 0 ==> l.offsets[0] == ZeroTotal && l.scopes[0] == RootScope)
            && (forall i :: 0 <= i < k - 1 ==>
                  host.initiateType(types[i], l.scopes[i], l.offsets[i]) == Initiated(l.scopes[i + 1], l.offsets[i + 1]))
            && (k > 0 ==> host.initiateType(types[k - 1], l.scopes[k - 1], l.offsets[k - 1]) == Initiated(l.scope, l.total))
  {
    if k > 0 {
      LayoutChain(host, types, k - 1);
      var p := Layout(host, types, k - 1);
      var l := Layout(host, types, k);
      assert l.offsets == p.offsets + [p.total] && l.scopes == p.scopes + [p.scope];
      forall i | 0 <= i < k - 1
        ensures host.initiateType(types[i], l.scopes[i], l.offsets[i]) == Initiated(l.scopes[i + 1], l.offsets[i + 1])
      {
        assert l.scopes[i] == p.scopes[i] && l.offsets[i] == p.offsets[i];
        if i + 1 < k - 1 {
          assert l.scopes[i + 1] == p.scopes[i + 1] && l.offsets[i + 1] == p.offsets[i + 1];
        }
      }
    }
  }

  /** The root memory after the first k libraries initiated their values, each at
      its offset and with the values put for it, if any. */
  function InitValues(host: Host, types: seq<Library>, offsets: seq<MemTotal>, values: map<Library, MemState>,
                      k: nat, m0: MemState): MemState
    requires k <= |types| && |offsets| == |types|
  {
    if k == 0 then m0
    else
      var t := types[k - 1];
      host.initiateValues(t, offsets[k - 1], if t in values then Some(values[t]) else None,
                          InitValues(host, types, offsets, values, k - 1, m0))
  }

  /** Initialising reads the given values only for the listed types: two value maps
      that agree on the first k types give the same memory. */
  lemma {:induction false} InitValuesReadsListed(host: Host, types: seq<Library>, offsets: seq<MemTotal>,
                                                 values: map<Library, MemState>, values': map<Library, MemState>,
                                                 k: nat, m0: MemState)
    requires k <= |types| && |offsets| == |types|
    requires forall i :: 0 <= i < k ==>
               (types[i] in values <==> types[i] in values')
               && (types[i] in values ==> values[types[i]] == values'[types[i]])
    ensures InitValues(host, types, offsets, values, k, m0) == InitValues(host, types, offsets, values', k, m0)
    decreases k
  {
    if k > 0 {
      InitValuesReadsListed(host, types, offsets, values, values', k - 1, m0);
    }
  }

  /** The run state after the first k instructions, or the error of the first
      that failed. A run that starts returning runs nothing. */
  function RunAll(host: Host, insts: seq<Inst>, k: nat, s0: RunState): (r: Result<RunState>)
    requires k <= |insts|
    ensures s0.frame.returnImmediately ==> r == Ok(s0)
  {
    if k == 0 then Ok(s0)
    else
      var s :- RunAll(host, insts, k - 1, s0);
      RunOne(host, insts[k - 1], s)
  }

  /** Once the root frame is returning, the statements after that point are
      skipped: the run ends in the state it reached. */
  lemma {:induction false} RunSkipsAfterReturn(host: Host, insts: seq<Inst>, j: nat, k: nat, s0: RunState)
    requires j <= k <= |insts|
    requires RunAll(host, insts, j, s0).Ok? && RunAll(host, insts, j, s0).value.frame.returnImmediately
    ensures RunAll(host, insts, k, s0) == RunAll(host, insts, j, s0)
    decreases k
  {
    if k > j {
      RunSkipsAfterReturn(host, insts, j, k - 1, s0);
    }
  }

  /** Once an instruction fails, the instructions after it do not run: the whole
      run ends with that failure. */
  lemma {:induction false} RunAbortsAt(host: Host, insts: seq<Inst>, j: nat, k: nat, s0: RunState)
    requires j < k <= |insts|
    requires RunAll(host, insts, j, s0).Ok? && RunOne(host, insts[j], RunAll(host, insts, j, s0).value).Err?
    ensures RunAll(host, insts, k, s0) == RunOne(host, insts[j], RunAll(host, insts, j, s0).value)
    decreases k
  {
    if k > j + 1 {
      RunAbortsAt(host, insts, j, k - 1, s0);
    }
  }

  /** A run succeeds exactly when every instruction ran on what the ones before it
      left and none failed. */
  lemma {:induction false} RunSucceeds(host: Host, insts: seq<Inst>, k: nat, s0: RunState)
    requires k <= |insts|
    ensures RunAll(host, insts, k, s0).Ok? <==>
              forall j :: 0 <= j < k ==> RunAll(host, insts, j, s0).Ok? && RunOne(host, insts[j], RunAll(host, insts, j, s0).value).Ok?
    decreases k
  {
    if k > 0 {
      RunSucceeds(host, insts, k - 1, s0);
      if RunAll(host, insts, k - 1, s0).Err? {
        var j :| 0 <= j < k - 1 && !(RunAll(host, insts, j, s0).Ok? && RunOne(host, insts[j], RunAll(host, insts, j, s0).value).Ok?);
      }
    }
  }

  /** The values a host put for the libraries, as the cells they hold. */
  function StatesOf(values: map<Library, RuntimeMemory>): map<Library, MemState>
    reads set t | t in values :: values[t]
  {
    map t | t in values :: values[t].State()
  }

  class Interpreter {
    const host: Host
    const env: Env
    const types: seq<Library>
    const ast: seq<Stmt>
    /** The offset each library's cells start at. */
    const typesOffset: seq<MemTotal>
    /** The type context after the libraries, which the program is checked in. */
    const typesScope: Scope
    /** The type context after checking the program. */
    const typeContext: Scope
    /** The values the host put for the libraries. */
    var valueForTypes: map<Library, RuntimeMemory>

    /** The offsets and the contexts are those of the libraries' layout, and the
        program checked in the context they left. */
    ghost predicate Valid()
    {
      var l := Layout(host, types, |types|);
      typesOffset == l.offsets && typesScope == l.scope && CheckStatements(env, typesScope, ast) == Ok(typeContext)
    }

    /** An interpreter over a layout and a check already done; the layout and the
        check must be those of the libraries and the program. */
    constructor (host: Host, env: Env, types: seq<Library>, ast: seq<Stmt>,
                 typesOffset: seq<MemTotal>, typesScope: Scope, typeContext: Scope)
      requires typesOffset == Layout(host, types, |types|).offsets && typesScope == Layout(host, types, |types|).scope
      requires CheckStatements(env, typesScope, ast) == Ok(typeContext)
      ensures Valid()
      ensures this.host == host && this.env == env
      ensures this.types == types && this.ast == ast && this.typesOffset == typesOffset
      ensures this.typesScope == typesScope && this.typeContext == typeContext && valueForTypes == map[]
    {
      this.host, this.env := host, env;
      this.types, this.ast, this.typesOffset := types, ast, typesOffset;
      this.typesScope, this.typeContext := typesScope, typeContext;
      valueForTypes := map[];
    }

    /** The interpreter's initialisation: each library in order is given the offset
        the previous ones reached and initiates its types; then the program is
        checked once, in the context the libraries left. A program that does not
        check gives no interpreter. */
    static method Create(host: Host, env: Env, types: seq<Library>, ast: seq<Stmt>)
      returns (r: Result<Interpreter>)
      ensures var checked := CheckStatements(env, Layout(host, types, |types|).scope, ast);
              (r.Ok? <==> checked.Ok?) && (r.Err? ==> r == Err(checked.msg))
      ensures r.Ok? ==> fresh(r.value) && r.value.Valid() && r.value.valueForTypes == map[]
      ensures r.Ok? ==> r.value.host == host && r.value.env == env
      ensures r.Ok? ==> r.value.types == types && r.value.ast == ast
    {
      var offsets: seq<MemTotal> := [];
      var scope := RootScope;
      var offset := ZeroTotal;
      for i := 0 to |types|
        invariant offsets == Layout(host, types, i).offsets
        invariant scope == Layout(host, types, i).scope && offset == Layout(host, types, i).total
      {
        offsets := offsets + [offset];
        var n := host.initiateType(types[i], scope, offset);
        scope, offset := n.scope, n.next;
      }
      var checked := CheckStatements(env, scope, ast);
      if checked.Err? {
        return Err(checked.msg);
      }
      var it := new Interpreter(host, env, types, ast, offsets, scope, checked.value);
      r := Ok(it);
    }

    /** putValues: the values for library t, replacing any put before. */
    method PutValues(t: Library, values: RuntimeMemory)
      modifies this
      ensures valueForTypes == old(valueForTypes)[t := values]
    {
      valueForTypes := valueForTypes[t := values];
    }

    /** removeValues: library t has no values put any more. */
    method RemoveValues(t: Library)
      modifies this
      ensures valueForTypes == old(valueForTypes) - {t}
    {
      valueForTypes := valueForTypes - {t};
    }

    /** The statements' instructions, each lowered in the context it was checked in. */
    function Instructions(): (r: seq<Inst>)
      requires Valid()
      ensures |r| == |ast|
    {
      StatementsLoweringSucceed(env, typesScope, ast);
      GenerateStatements(env, typesScope, ast).value
    }

    /** The loop of execute over the libraries: each, in order, initiates its
        values in mem at its offset, with the values put for it, if any. */
    method InitiateValues(mem: RuntimeMemory, states: map<Library, MemState>)
      requires Valid()
      modifies mem
      ensures mem.State() == InitValues(host, types, typesOffset, states, |types|, old(mem.State()))
    {
      ghost var e := mem.State();
      for i := 0 to |types|
        invariant mem.State() == InitValues(host, types, typesOffset, states, i, e)
      {
        var t := types[i];
        var v := if t in states then Some(states[t]) else None;
        mem.Store(host.initiateValues(t, typesOffset[i], v, mem.State()));
      }
    }

    /** The statement loop of execute: each instruction in order runs on the root
        frame and the Execution value holder, both carrying over from one statement
        to the next; the first failure ends the loop with its message. */
    method RunInstructions(ctx: ActionContext, exec: ValueHolder, insts: seq<Inst>) returns (err: Option<string>)
      modifies ctx, ctx.memory, exec
      ensures var out := RunAll(host, insts, |insts|, RunState(old(ctx.State()), old(exec.Snapshot())));
              (err.None? <==> out.Ok?) && (err.Some? ==> err.value == out.msg)
              && (out.Ok? ==> RunState(ctx.State(), exec.Snapshot()) == out.value)
    {
      ghost var s0 := RunState(ctx.State(), exec.Snapshot());
      for j := 0 to |insts|
        invariant RunAll(host, insts, j, s0) == Ok(RunState(ctx.State(), exec.Snapshot()))
      {
        var res := RunOne(host, insts[j], RunState(ctx.State(), exec.Snapshot()));
        if res.Err? {
          RunAbortsAt(host, insts, j, |insts|, s0);
          return Some(res.msg);
        }
        ctx.Restore(res.value.frame);
        exec.Load(res.value.held);
      }
      err := None;
    }

    /** execute: a root frame sized by the checked context's memory total; each
        library initiates its values at its offset, in order; then the statements'
        instructions run on the root frame and a fresh Execution value holder, the
        first failure ending the run with its message. The result is the root
        frame's memory. */
    method Execute() returns (r: Result<RuntimeMemory>)
      requires Valid()
      ensures var m0 := InitValues(host, types, typesOffset, old(StatesOf(valueForTypes)), |types|,
                                   EmptyMem(host.memoryTotal(typeContext)));
              var s0 := RunState(FrameState(m0, false, 0, 0), Held(0, 0, 0, 0, false, NullRef));
              var out := RunAll(host, Instructions(), |ast|, s0);
              (r.Ok? <==> out.Ok?) && (r.Err? ==> r.msg == out.msg)
              && (r.Ok? ==> fresh(r.value) && r.value.State() == out.value.frame.mem)
    {
      var states := StatesOf(valueForTypes);
      var ctx := new ActionContext(host.memoryTotal(typeContext), null);
      InitiateValues(ctx.memory, states);
      var exec := new ValueHolder();
      var err := RunInstructions(ctx, exec, Instructions());
      if err.Some? {
        return Err(err.value);
      }
      r := Ok(ctx.memory);
    }
  }
}
