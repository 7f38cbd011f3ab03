/** The runtime of the embedded language (vjson/pl/inst): frames with their memory,
    the value holder that instructions pass results through, the wrapper every
    instruction runs in, and the frame a function call is given. */
module PlRuntime {
  import opened Wrappers
  import opened PlTypes

  /** What a host iterator yields; floats and doubles are opaque payloads. */
  datatype Value = IntV(i: int) | LongV(l: int) | FloatV(f: nat) | DoubleV(d: nat) | BoolV(b: bool) | RefV(r: Ref)

  /** What a reference slot holds: an array of some element kind and size, an
      object's frame, a host iterator, a string, or another host object. */
  datatype Ref =
    | NullRef
    | ArrayRef(kind: Slot, size: nat)
    | FrameRef(frame: ActionContext)
    | IteratorRef(it: HostIterator)
    | StringRef(s: string)
    | Boxed(v: Value)
    | OtherRef(id: nat)

  /** A host iterator, as a cursor over the elements it will yield. */
  class HostIterator {
    var elements: seq<Value>
    var cursor: nat

    predicate HasNext()
      reads this
    {
      cursor < |elements|
    }
  }

  /** The contents of a value holder. */
  datatype Held = Held(intValue: int, longValue: int, floatValue: nat, doubleValue: nat, boolValue: bool, refValue: Ref)

  /** ValueHolder: one register per slot kind. */
  class ValueHolder {
    var intValue: int
    var longValue: int
    var floatValue: nat
    var doubleValue: nat
    var boolValue: bool
    var refValue: Ref

    function Snapshot(): Held
      reads this
    {
      Held(intValue, longValue, floatValue, doubleValue, boolValue, refValue)
    }

    constructor()
      ensures Snapshot() == Held(0, 0, 0, 0, false, NullRef)
    {
      intValue, longValue, floatValue, doubleValue, boolValue, refValue := 0, 0, 0, 0, false, NullRef;
    }

    /** Takes the registers the argument's instruction left behind. */
    method Load(h: Held)
      modifies this
      ensures Snapshot() == h
    {
      intValue, longValue, floatValue, doubleValue, boolValue, refValue :=
        h.intValue, h.longValue, h.floatValue, h.doubleValue, h.boolValue, h.refValue;
    }
  }

  /** The cells of a frame's memory, one list per slot kind. */
  datatype MemState = MemState(ints: seq<int>, longs: seq<int>, floats: seq<nat>, doubles: seq<nat>,
                               bools: seq<bool>, refs: seq<Ref>)

  /** A freshly allocated memory of the given size: zeros, false and nulls. */
  function EmptyMem(t: MemTotal): (m: MemState)
    ensures |m.ints| == t.ints && |m.longs| == t.longs && |m.floats| == t.floats
    ensures |m.doubles| == t.doubles && |m.bools| == t.bools && |m.refs| == t.refs
    ensures Counts(m) == t
  {
    MemState(seq(t.ints, _ => 0), seq(t.longs, _ => 0), seq(t.floats, _ => 0), seq(t.doubles, _ => 0),
             seq(t.bools, _ => false), seq(t.refs, _ => NullRef))
  }

  /** How many cells of each kind a memory has. */
  function Counts(m: MemState): MemTotal
  {
    MemTotal(|m.ints|, |m.longs|, |m.floats|, |m.doubles|, |m.bools|, |m.refs|)
  }

  /** The number a total gives for kind k. */
  function Count(t: MemTotal, k: Slot): nat
  {
    match k
    case IntSlot => t.ints
    case LongSlot => t.longs
    case FloatSlot => t.floats
    case DoubleSlot => t.doubles
    case BoolSlot => t.bools
    case RefSlot => t.refs
  }

  /** How many cells of a kind a memory has. */
  function Cells(m: MemState, k: Slot): nat
  {
    Count(Counts(m), k)
  }

  /** Cell i of kind k, as a value. */
  function CellOf(m: MemState, k: Slot, i: nat): Value
    requires i < Cells(m, k)
  {
    match k
    case IntSlot => IntV(m.ints[i])
    case LongSlot => LongV(m.longs[i])
    case FloatSlot => FloatV(m.floats[i])
    case DoubleSlot => DoubleV(m.doubles[i])
    case BoolSlot => BoolV(m.bools[i])
    case RefSlot => RefV(m.refs[i])
  }

  /** The register of kind k, as a value. */
  function Register(h: Held, k: Slot): Value
  {
    match k
    case IntSlot => IntV(h.intValue)
    case LongSlot => LongV(h.longValue)
    case FloatSlot => FloatV(h.floatValue)
    case DoubleSlot => DoubleV(h.doubleValue)
    case BoolSlot => BoolV(h.boolValue)
    case RefSlot => RefV(h.refValue)
  }

  /** Whether cell i of kind k is the same in both memories. */
  predicate SameCell(a: MemState, b: MemState, k: Slot, i: nat)
  {
    Cells(a, k) == Cells(b, k) && (i < Cells(a, k) ==> CellOf(a, k, i) == CellOf(b, k, i))
  }

  /** The register of kind k written to cell i of kind k (setInt, setLong, ...,
      setRef). */
  function Write(m: MemState, k: Slot, i: nat, h: Held): (r: MemState)
    requires i < Cells(m, k)
    ensures Counts(r) == Counts(m)
    ensures CellOf(r, k, i) == Register(h, k)
  {
    match k
    case IntSlot => m.(ints := m.ints[i := h.intValue])
    case LongSlot => m.(longs := m.longs[i := h.longValue])
    case FloatSlot => m.(floats := m.floats[i := h.floatValue])
    case DoubleSlot => m.(doubles := m.doubles[i := h.doubleValue])
    case BoolSlot => m.(bools := m.bools[i := h.boolValue])
    case RefSlot => m.(refs := m.refs[i := h.refValue])
  }

  /** A write changes no other cell. */
  lemma WriteLeavesOthers(m: MemState, k: Slot, i: nat, h: Held, k': Slot, j: nat)
    requires i < Cells(m, k)
    requires k' != k || j != i
    ensures SameCell(m, Write(m, k, i, h), k', j)
  {
  }

  /** RuntimeMemory: a frame's cells. */
  class RuntimeMemory {
    var ints: seq<int>
    var longs: seq<int>
    var floats: seq<nat>
    var doubles: seq<nat>
    var bools: seq<bool>
    var refs: seq<Ref>

    function State(): MemState
      reads this
    {
      MemState(ints, longs, floats, doubles, bools, refs)
    }

    constructor(total: MemTotal)
      ensures State() == EmptyMem(total)
    {
      var m := EmptyMem(total);
      ints, longs, floats, doubles, bools, refs := m.ints, m.longs, m.floats, m.doubles, m.bools, m.refs;
    }

    /** The cells as an instruction or a type's value initiation left them. */
    method Store(m: MemState)
      modifies this
      ensures State() == m
    {
      ints, longs, floats, doubles, bools, refs := m.ints, m.longs, m.floats, m.doubles, m.bools, m.refs;
    }

    method Set(k: Slot, i: nat, h: Held)
      requires i < Cells(State(), k)
      modifies this
      ensures State() == Write(old(State()), k, i, h)
    {
      match k
      case IntSlot => ints := ints[i := h.intValue];
      case LongSlot => longs := longs[i := h.longValue];
      case FloatSlot => floats := floats[i := h.floatValue];
      case DoubleSlot => doubles := doubles[i := h.doubleValue];
      case BoolSlot => bools := bools[i := h.boolValue];
      case RefSlot => refs := refs[i := h.refValue];
    }
  }

  /** What a frame holds between instructions: its cells and its control flags. */
  datatype FrameState = FrameState(mem: MemState, returnImmediately: bool, breakImmediately: int, continueImmediately: int)

  /** ActionContext: a frame with its own memory, its depth in the chain of
      enclosing frames, and the control flags of return, break and continue. */
  class ActionContext {
    const parent: ActionContext?
    const depth: nat
    const memory: RuntimeMemory
    /** The enclosing frames, outermost first. */
    ghost const ancestors: seq<ActionContext>
    var returnImmediately: bool
    var breakImmediately: int
    var continueImmediately: int

    /** The depths count the enclosing frames. */
    ghost predicate Chain()
      decreases depth
    {
      |ancestors| == depth
      && (parent == null ==> depth == 0 && ancestors == [])
      && (parent != null ==> depth == parent.depth + 1 && ancestors == parent.ancestors + [parent] && parent.Chain())
    }

    constructor(total: MemTotal, parent: ActionContext?)
      requires parent != null ==> parent.Chain()
      ensures Chain()
      ensures this.parent == parent && depth == if parent == null then 0 else parent.depth + 1
      ensures fresh(memory) && memory.State() == EmptyMem(total)
      ensures !returnImmediately && breakImmediately == 0 && continueImmediately == 0
    {
      this.parent := parent;
      depth := if parent == null then 0 else parent.depth + 1;
      ancestors := if parent == null then [] else parent.ancestors + [parent];
      memory := new RuntimeMemory(total);
      returnImmediately := false;
      breakImmediately := 0;
      continueImmediately := 0;
    }

    /** The frame's cells and flags. */
    function State(): FrameState
      reads this, memory
    {
      FrameState(memory.State(), returnImmediately, breakImmediately, continueImmediately)
    }

    /** The cells and flags as an instruction left them. */
    method Restore(f: FrameState)
      modifies this, memory
      ensures State() == f
    {
      memory.Store(f.mem);
      returnImmediately, breakImmediately, continueImmediately := f.returnImmediately, f.breakImmediately, f.continueImmediately;
    }

    /** getContext: the frame at depth d, walking out through the parents. */
    function GetContext(d: int): (r: ActionContext)
      requires Chain() && 0 <= d <= depth
      ensures r.depth == d && r.Chain()
      ensures r == (ancestors + [this])[d]
      decreases depth
    {
      AncestorDepths();
      if depth == d then this
      else
        var r := parent.GetContext(d);
        assert (parent.ancestors + [parent])[d] == (ancestors + [this])[d];
        r
    }

    /** getMem: the memory of the frame at depth d. */
    function GetMem(d: int): (m: RuntimeMemory)
      requires Chain() && 0 <= d <= depth
      ensures m == (ancestors + [this])[d].memory
    {
      GetContext(d).memory
    }

    /** The i-th enclosing frame has depth i, so each depth names one frame. */
    lemma {:induction false} AncestorDepths()
      requires Chain()
      ensures |ancestors| == depth
      ensures forall i :: 0 <= i < |ancestors| ==> ancestors[i].depth == i
      decreases depth
    {
      if parent != null {
        parent.AncestorDepths();
      }
    }
  }

  /** Where an instruction came from, for the stack trace. */
  datatype StackInfo = StackInfo(id: nat)

  /** InstructionException: a message, if any, and the trace of the instructions it
      has unwound through, innermost first. */
  class InstructionException {
    const message: Option<string>
    var stackTrace: seq<StackInfo>

    constructor(message: Option<string>, info: StackInfo)
      ensures this.message == message && stackTrace == [info]
    {
      this.message := message;
      stackTrace := [info];
    }
  }

  /** How an instruction's own work (execute0) ended. */
  datatype Failure = InstructionFailure(ex: InstructionException) | OtherFailure(message: Option<string>)

  /** The part shared by every instruction: its stack info, and how many times its
      own work has run. */
  class Instruction {
    const stackInfo: StackInfo
    var runs: nat

    constructor(stackInfo: StackInfo)
      ensures this.stackInfo == stackInfo && runs == 0
    {
      this.stackInfo := stackInfo;
      runs := 0;
    }

    /** execute: nothing at all when the frame is returning; otherwise the own work
        runs once (its failure, if any, is `body`). An InstructionException gets this
        instruction's stack info appended and is thrown on; any other failure becomes
        a new one holding this stack info and the message. */
    method Execute(ctx: ActionContext, body: Option<Failure>) returns (thrown: Option<InstructionException>)
      modifies this, if body.Some? && body.value.InstructionFailure? then {body.value.ex} else {}
      ensures ctx.returnImmediately ==> thrown.None? && runs == old(runs)
      ensures ctx.returnImmediately && body.Some? && body.value.InstructionFailure? ==>
                body.value.ex.stackTrace == old(body.value.ex.stackTrace)
      ensures !ctx.returnImmediately ==> runs == old(runs) + 1
      ensures !ctx.returnImmediately && body.None? ==> thrown.None?
      ensures !ctx.returnImmediately && body.Some? && body.value.InstructionFailure? ==>
                thrown == Some(body.value.ex) && body.value.ex.stackTrace == old(body.value.ex.stackTrace) + [stackInfo]
      ensures !ctx.returnImmediately && body.Some? && body.value.OtherFailure? ==>
                thrown.Some? && fresh(thrown.value) && thrown.value.stackTrace == [stackInfo]
                && thrown.value.message == body.value.message
    {
      if ctx.returnImmediately {
        return None;
      }
      runs := runs + 1;
      if body.None? {
        return None;
      }
      match body.value
      case InstructionFailure(e) =>
        e.stackTrace := e.stackTrace + [stackInfo];
        thrown := Some(e);
      case OtherFailure(msg) =>
        var ex := new InstructionException(msg, stackInfo);
        thrown := Some(ex);
    }
  }

  function Infos(chain: seq<Instruction>): (r: seq<StackInfo>)
    ensures |r| == |chain|
    ensures forall i :: 0 <= i < |chain| ==> r[i] == chain[i].stackInfo
  {
    seq(|chain|, i requires 0 <= i < |chain| => chain[i].stackInfo)
  }

  /** A failure unwinding through nested instructions, innermost first, each of which
      fails with what the one inside it threw: the trace grows by one entry per
      instruction, innermost first. */
  method Unwind(chain: seq<Instruction>, ctx: ActionContext, failure: Failure) returns (e: InstructionException)
    requires |chain| > 0 && !ctx.returnImmediately
    modifies set i | 0 <= i < |chain| :: chain[i]
    modifies if failure.InstructionFailure? then {failure.ex} else {}
    ensures e.stackTrace == (if failure.InstructionFailure? then old(failure.ex.stackTrace) else []) + Infos(chain)
  {
    var thrown := chain[0].Execute(ctx, Some(failure));
    e := thrown.value;
    var i := 1;
    while i < |chain|
      invariant 1 <= i <= |chain|
      invariant failure.InstructionFailure? ==> e == failure.ex
      invariant failure.OtherFailure? ==> fresh(e)
      invariant e.stackTrace == (if failure.InstructionFailure? then old(failure.ex.stackTrace) else []) + Infos(chain[..i])
      invariant !ctx.returnImmediately
    {
      assert Infos(chain[..i + 1]) == Infos(chain[..i]) + [chain[i].stackInfo];
      thrown := chain[i].Execute(ctx, Some(InstructionFailure(e)));
      e := thrown.value;
      i := i + 1;
    }
    assert chain[..|chain|] == chain;
  }

  /** The registers after a value of kind k is put in its register: only that one
      changes; a reference register takes anything (a primitive boxed), the others
      only a value of their kind. */
  function Put(h: Held, k: Slot, v: Value): (r: Option<Held>)
    ensures r.Some? <==> k == RefSlot || (k == IntSlot && v.IntV?) || (k == LongSlot && v.LongV?)
                         || (k == FloatSlot && v.FloatV?) || (k == DoubleSlot && v.DoubleV?) || (k == BoolSlot && v.BoolV?)
    ensures r.Some? && k != RefSlot ==> Register(r.value, k) == v
    ensures r.Some? ==> forall k' :: k' != k ==> Register(r.value, k') == Register(h, k')
  {
    match k
    case IntSlot => if v.IntV? then Some(h.(intValue := v.i)) else None
    case LongSlot => if v.LongV? then Some(h.(longValue := v.l)) else None
    case FloatSlot => if v.FloatV? then Some(h.(floatValue := v.f)) else None
    case DoubleSlot => if v.DoubleV? then Some(h.(doubleValue := v.d)) else None
    case BoolSlot => if v.BoolV? then Some(h.(boolValue := v.b)) else None
    case RefSlot => Some(h.(refValue := if v.RefV? then v.r else Boxed(v)))
  }

  /** The `length` field of an array type: the size of the array in the reference
      register, of the element kind the field was chosen for, goes to the int
      register; a reference of another kind is a cast failure. */
  method ExecArrayLength(kind: Slot, values: ValueHolder) returns (err: Option<string>)
    modifies values
    ensures err.None? <==> old(values.refValue).ArrayRef? && old(values.refValue).kind == kind
    ensures err.None? ==> values.Snapshot() == old(values.Snapshot()).(intValue := old(values.refValue).size)
    ensures err.Some? ==> values.Snapshot() == old(values.Snapshot())
  {
    if values.refValue.ArrayRef? && values.refValue.kind == kind {
      values.intValue := values.refValue.size;
      return None;
    }
    return Some("class cast failure");
  }

  /** The host iterator of an iterator object: reference cell 0 of the memory of
      the frame in the reference register. */
  function Receiver(values: ValueHolder): (r: Option<HostIterator>)
    reads values, if values.refValue.FrameRef? then {values.refValue.frame.memory} else {}
  {
    if values.refValue.FrameRef? then
      var refs := values.refValue.frame.memory.refs;
      if |refs| > 0 && refs[0].IteratorRef? then Some(refs[0].it) else None
    else None
  }

  /** The iterator's hasNext field: whether the host iterator has an element left,
      in the bool register and nowhere else. */
  method ExecHasNext(values: ValueHolder) returns (err: Option<string>)
    modifies values
    ensures err.None? <==> old(Receiver(values)).Some?
    ensures err.None? ==> values.Snapshot() == old(values.Snapshot()).(boolValue := old(Receiver(values)).value.HasNext())
    ensures err.Some? ==> values.Snapshot() == old(values.Snapshot())
  {
    var it := Receiver(values);
    if it.None? {
      return Some("class cast failure");
    }
    values.boolValue := it.value.HasNext();
    err := None;
  }

  /** The iterator's next field: the host iterator moves one element on, and the
      element goes to the register of the element kind only. An exhausted iterator
      fails without moving; an element of another kind fails after the move. */
  method ExecNext(kind: Slot, values: ValueHolder) returns (err: Option<string>)
    modifies values, if Receiver(values).Some? then {Receiver(values).value} else {}
    ensures old(Receiver(values)).None? ==> err.Some? && values.Snapshot() == old(values.Snapshot())
    ensures old(Receiver(values)).Some? ==>
              var it := old(Receiver(values)).value;
              if old(it.cursor) >= |old(it.elements)| then
                err.Some? && values.Snapshot() == old(values.Snapshot()) && it.cursor == old(it.cursor)
              else
                it.cursor == old(it.cursor) + 1 && it.elements == old(it.elements)
                && var put := Put(old(values.Snapshot()), kind, old(it.elements)[old(it.cursor)]);
                   (put.Some? ==> err.None? && values.Snapshot() == put.value)
                   && (put.None? ==> err.Some? && values.Snapshot() == old(values.Snapshot()))
  {
    var recv := Receiver(values);
    if recv.None? {
      return Some("class cast failure");
    }
    var it := recv.value;
    if it.cursor >= |it.elements| {
      return Some("no such element");
    }
    var e := it.elements[it.cursor];
    it.cursor := it.cursor + 1;
    var put := Put(values.Snapshot(), kind, e);
    if put.None? {
      return Some("class cast failure");
    }
    values.Load(put.value);
    err := None;
  }

  /** The cell a parameter is bound to in the callee's frame: the slot kind of its
      type and its memory index. */
  datatype Target = Target(kind: Slot, memIndex: nat)

  /** The cells of a descriptor's parameters, in order. */
  function ParamCells(params: seq<ParamInstance>): seq<Target>
  {
    seq(|params|, i requires 0 <= i < |params| => Target(SlotOf(params[i].ty), params[i].memIndex))
  }

  /** What evaluating one argument leaves: the caller's memory, the registers, and
      the message of the InstructionException it threw, if any. */
  datatype ArgRun = ArgRun(callerMem: MemState, held: Held, thrown: Option<string>)

  /** What binding the arguments leaves: the new frame's memory, the caller's
      memory, the registers, and the exception that ended the binding, if any. */
  datatype Binding = Binding(callee: MemState, caller: MemState, held: Held, thrown: Option<string>)

  /** The binding of the first k arguments: argument i is evaluated (eval) against
      the caller's memory with the registers the previous one left, and its register
      of the parameter's slot kind is written to the parameter's cell of the new
      frame, in index order. An argument that throws ends the binding: its cell is
      not written and no later argument is evaluated. */
  function Bind(m0: MemState, c0: MemState, h0: Held, params: seq<Target>, k: nat,
                eval: (nat, MemState, Held) -> ArgRun): (r: Binding)
    requires k <= |params|
    requires forall i :: 0 <= i < k ==> params[i].memIndex < Cells(m0, params[i].kind)
    ensures Counts(r.callee) == Counts(m0)
    ensures k == 0 ==> r == Binding(m0, c0, h0, None)
  {
    if k == 0 then Binding(m0, c0, h0, None)
    else
      var b := Bind(m0, c0, h0, params, k - 1, eval);
      assert Cells(b.callee, params[k - 1].kind) == Cells(m0, params[k - 1].kind);
      BindNext(b, params[k - 1], k - 1, eval)
  }

  /** Argument i bound after what the ones before it left. */
  function BindNext(b: Binding, p: Target, i: nat, eval: (nat, MemState, Held) -> ArgRun): (r: Binding)
    requires p.memIndex < Cells(b.callee, p.kind)
    ensures Counts(r.callee) == Counts(b.callee)
    ensures b.thrown.Some? ==> r == b
  {
    if b.thrown.Some? then b
    else
      var a := eval(i, b.caller, b.held);
      if a.thrown.Some? then Binding(b.callee, a.callerMem, a.held, a.thrown)
      else Binding(Write(b.callee, p.kind, p.memIndex, a.held), a.callerMem, a.held, None)
  }

  /** One more argument bound after none threw: it runs on the caller's memory and
      the registers left so far; if it throws, the new frame is as it was, otherwise
      its register is written to its parameter's cell. */
  lemma BindStep(m0: MemState, c0: MemState, h0: Held, params: seq<Target>, k: nat,
                 eval: (nat, MemState, Held) -> ArgRun, b: Binding)
    requires k < |params|
    requires forall i :: 0 <= i <= k ==> params[i].memIndex < Cells(m0, params[i].kind)
    requires b == Bind(m0, c0, h0, params, k, eval) && b.thrown.None?
    ensures params[k].memIndex < Cells(b.callee, params[k].kind)
    ensures var a := eval(k, b.caller, b.held);
            Bind(m0, c0, h0, params, k + 1, eval)
            == if a.thrown.Some? then Binding(b.callee, a.callerMem, a.held, a.thrown)
               else Binding(Write(b.callee, params[k].kind, params[k].memIndex, a.held), a.callerMem, a.held, None)
  {
  }

  /** Once an argument has thrown, binding more arguments changes nothing: the
      later arguments are not evaluated. */
  lemma {:induction false} BindStopsAfterThrow(m0: MemState, c0: MemState, h0: Held, params: seq<Target>,
                                               j: nat, k: nat, eval: (nat, MemState, Held) -> ArgRun)
    requires j <= k <= |params|
    requires forall i :: 0 <= i < k ==> params[i].memIndex < Cells(m0, params[i].kind)
    requires Bind(m0, c0, h0, params, j, eval).thrown.Some?
    ensures Bind(m0, c0, h0, params, k, eval) == Bind(m0, c0, h0, params, j, eval)
    decreases k
  {
    if k > j {
      BindStopsAfterThrow(m0, c0, h0, params, j, k - 1, eval);
    }
  }

  /** A cell of the new frame no parameter is bound to keeps its initial value. */
  lemma {:induction false} BindLeavesOthers(m0: MemState, c0: MemState, h0: Held, params: seq<Target>, k: nat,
                                            eval: (nat, MemState, Held) -> ArgRun, kind: Slot, j: nat)
    requires k <= |params|
    requires forall i :: 0 <= i < k ==> params[i].memIndex < Cells(m0, params[i].kind)
    requires forall i :: 0 <= i < k ==> params[i].kind != kind || params[i].memIndex != j
    ensures SameCell(m0, Bind(m0, c0, h0, params, k, eval).callee, kind, j)
  {
    if k > 0 {
      BindLeavesOthers(m0, c0, h0, params, k - 1, eval, kind, j);
      var b := Bind(m0, c0, h0, params, k - 1, eval);
      if b.thrown.None? {
        var a := eval(k - 1, b.caller, b.held);
        WriteLeavesOthers(b.callee, params[k - 1].kind, params[k - 1].memIndex, a.held, kind, j);
      }
    }
  }

  /** When no argument threw, the cell of the last parameter bound holds its
      argument's value. */
  lemma BindWritesLast(m0: MemState, c0: MemState, h0: Held, params: seq<Target>, k: nat,
                       eval: (nat, MemState, Held) -> ArgRun)
    requires 0 < k <= |params|
    requires forall i :: 0 <= i < k ==> params[i].memIndex < Cells(m0, params[i].kind)
    requires Bind(m0, c0, h0, params, k, eval).thrown.None?
    ensures var b := Bind(m0, c0, h0, params, k, eval);
            var p := params[k - 1];
            p.memIndex < Cells(b.callee, p.kind) && CellOf(b.callee, p.kind, p.memIndex) == Register(b.held, p.kind)
  {
  }

  /** One pass of buildContext's argument loop: argument i runs on the caller's
      memory and, unless it throws, its register is written to the parameter's cell
      of the new frame. */
  method BindOne(mem: RuntimeMemory, caller: RuntimeMemory, values: ValueHolder, p: Target, i: nat,
                 eval: (nat, MemState, Held) -> ArgRun)
    returns (thrown: Option<string>)
    requires mem != caller
    requires p.memIndex < Cells(mem.State(), p.kind)
    modifies mem, caller, values
    ensures Binding(mem.State(), caller.State(), values.Snapshot(), thrown)
            == BindNext(Binding(old(mem.State()), old(caller.State()), old(values.Snapshot()), None), p, i, eval)
  {
    var a := eval(i, caller.State(), values.Snapshot());
    caller.Store(a.callerMem);
    values.Load(a.held);
    thrown := a.thrown;
    if thrown.None? {
      mem.Set(p.kind, p.memIndex, a.held);
    }
  }

  /** The argument loop of buildContext: each argument runs on the caller's memory
      and is written into the new frame's memory, until one throws. */
  method BindArgs(mem: RuntimeMemory, caller: RuntimeMemory, values: ValueHolder, params: seq<Target>,
                  nargs: nat, eval: (nat, MemState, Held) -> ArgRun)
    returns (thrown: Option<string>)
    requires mem != caller
    requires nargs <= |params|
    requires forall i :: 0 <= i < nargs ==> params[i].memIndex < Cells(mem.State(), params[i].kind)
    modifies mem, caller, values
    ensures Binding(mem.State(), caller.State(), values.Snapshot(), thrown)
            == Bind(old(mem.State()), old(caller.State()), old(values.Snapshot()), params, nargs, eval)
  {
    ghost var m0, c0, h0 := mem.State(), caller.State(), values.Snapshot();
    thrown := None;
    for i := 0 to nargs
      invariant var b := Bind(m0, c0, h0, params, i, eval);
                mem.State() == b.callee && caller.State() == b.caller && values.Snapshot() == b.held && b.thrown.None? && thrown.None?
    {
      thrown := BindOne(mem, caller, values, params[i], i, eval);
      if thrown.Some? {
        BindStopsAfterThrow(m0, c0, h0, params, i + 1, nargs, eval);
        return;
      }
    }
  }

  /** FunctionInvocation.buildContext: a frame sized by the callee's memory total
      and parented to ctx, one level deeper, with the arguments evaluated against
      callerCtx's memory and bound to their parameters. The two contexts are the
      same frame when the target is not a FunctionInstance. An argument's exception
      is returned instead of thrown; ctx's memory, when it is not the caller's, is
      not touched. */
  method BuildContext(callerCtx: ActionContext, ctx: ActionContext, values: ValueHolder, desc: FuncDesc, nargs: nat,
                      eval: (nat, MemState, Held) -> ArgRun)
    returns (newCtx: ActionContext, thrown: Option<string>)
    requires ctx.Chain() && nargs <= |desc.params|
    requires forall i :: 0 <= i < nargs ==> desc.params[i].memIndex < Count(desc.mem, SlotOf(desc.params[i].ty))
    modifies callerCtx.memory, values
    ensures fresh(newCtx) && fresh(newCtx.memory)
    ensures newCtx.parent == ctx && newCtx.depth == ctx.depth + 1 && newCtx.Chain()
    ensures !newCtx.returnImmediately && newCtx.breakImmediately == 0 && newCtx.continueImmediately == 0
    ensures Binding(newCtx.memory.State(), callerCtx.memory.State(), values.Snapshot(), thrown)
            == Bind(EmptyMem(desc.mem), old(callerCtx.memory.State()), old(values.Snapshot()), ParamCells(desc.params), nargs, eval)
    ensures ctx.memory != callerCtx.memory ==> unchanged(ctx.memory)
  {
    newCtx := new ActionContext(desc.mem, ctx);
    thrown := BindArgs(newCtx.memory, callerCtx.memory, values, ParamCells(desc.params), nargs, eval);
  }
}
