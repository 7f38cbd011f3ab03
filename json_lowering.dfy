/** The lowering of a JSON instance (NewInstanceWithJson.generateInstruction, both
    overloads): the literal tree becomes a flat list of instructions that build the
    nested objects and arrays into temporaries named `$$tmp$$` + counter, and
    construct the instance from its parameters in constructor order. */
module JsonLowering {
  import opened Wrappers
  import opened PlTypes
  import opened PlSyntax
  import opened PlInst

  const SyntheticVariablePrefix: string := "$$tmp$$"

  /** The name of the temporary made with counter value k. */
  function Temp(k: nat): string
  {
    SyntheticVariablePrefix + NatToString(k)
  }

  lemma DigitInjective(a: nat, b: nat)
    requires a < 10 && b < 10 && DigitChar(a) == DigitChar(b)
    ensures a == b
  {
    assert DigitChar(a) as int == '0' as int + a;
    assert DigitChar(b) as int == '0' as int + b;
  }

  /** A number has a one-digit spelling exactly when it is below ten. */
  lemma SingleDigit(n: nat)
    ensures |NatToString(n)| == 1 <==> n < 10
  {
    if n >= 10 {
      assert |NatToString(n)| == |NatToString(n / 10)| + 1;
    }
  }

  /** Different numbers are spelled differently. */
  lemma {:induction false} NatToStringInjective(a: nat, b: nat)
    requires NatToString(a) == NatToString(b)
    ensures a == b
    decreases a
  {
    SingleDigit(a);
    SingleDigit(b);
    if a < 10 {
      assert NatToString(a)[0] == DigitChar(a) && NatToString(b)[0] == DigitChar(b);
      DigitInjective(a, b);
    } else {
      var sa, sb := NatToString(a / 10), NatToString(b / 10);
      assert NatToString(a) == sa + [DigitChar(a % 10)];
      assert NatToString(b) == sb + [DigitChar(b % 10)];
      assert |sa| == |sb|;
      assert sa == NatToString(a)[..|sa|] == NatToString(b)[..|sb|] == sb;
      assert NatToString(a)[|sa|] == DigitChar(a % 10) && NatToString(b)[|sb|] == DigitChar(b % 10);
      NatToStringInjective(a / 10, b / 10);
      DigitInjective(a % 10, b % 10);
    }
  }

  /** Temporaries made with different counter values have different names. */
  lemma TempInjective(a: nat, b: nat)
    requires Temp(a) == Temp(b)
    ensures a == b
  {
    var n := |SyntheticVariablePrefix|;
    assert Temp(a)[n..] == NatToString(a) && Temp(b)[n..] == NatToString(b);
    NatToStringInjective(a, b);
  }

  /** The temporaries made with counter values from c up to (not including) d. */
  function TempRange(c: nat, d: nat): set<string>
  {
    set k: nat | c <= k < d :: Temp(k)
  }

  lemma TempRangeGrows(c0: nat, c1: nat, d1: nat, d0: nat)
    requires c0 <= c1 && d1 <= d0
    ensures TempRange(c1, d1) <= TempRange(c0, d0)
  {
    forall s | s in TempRange(c1, d1) ensures s in TempRange(c0, d0) {
      var k: nat :| c1 <= k < d1 && s == Temp(k);
      assert c0 <= k < d0;
    }
  }

  /** A name outside every temporary from counter c on. */
  ghost predicate FreshFrom(name: string, c: nat)
  {
    forall k: nat :: c <= k ==> Temp(k) != name
  }

  // ---------------------------------------------------------------------------
  // Variables an instruction list defines or assigns into

  function InstNames(i: Inst): set<string>
  {
    if i.DefineVar? then {i.name} else if i.AssignIndex? then {i.arrayName} else {}
  }

  /** The variables defined or assigned into by a list of instructions. */
  function Names(insts: seq<Inst>): set<string>
  {
    if insts == [] then {} else InstNames(insts[0]) + Names(insts[1..])
  }

  lemma {:induction false} NamesAppend(a: seq<Inst>, b: seq<Inst>)
    ensures Names(a + b) == Names(a) + Names(b)
  {
    if a == [] {
      assert a + b == b;
    } else {
      assert (a + b)[0] == a[0] && (a + b)[1..] == a[1..] + b;
      NamesAppend(a[1..], b);
    }
  }

  /** The indices assigned into array variable `arr`, in list order. */
  function Assigned(insts: seq<Inst>, arr: string): seq<nat>
  {
    if insts == [] then []
    else (if insts[0].AssignIndex? && insts[0].arrayName == arr then [insts[0].index] else [])
         + Assigned(insts[1..], arr)
  }

  lemma {:induction false} AssignedAppend(a: seq<Inst>, b: seq<Inst>, arr: string)
    ensures Assigned(a + b, arr) == Assigned(a, arr) + Assigned(b, arr)
  {
    if a == [] {
      assert a + b == b;
    } else {
      assert (a + b)[0] == a[0] && (a + b)[1..] == a[1..] + b;
      AssignedAppend(a[1..], b, arr);
    }
  }

  lemma {:induction false} AssignedNone(insts: seq<Inst>, arr: string)
    requires arr !in Names(insts)
    ensures Assigned(insts, arr) == []
  {
    if insts != [] {
      AssignedNone(insts[1..], arr);
    }
  }

  /** The indices from a up to (not including) b, ascending. */
  function Range(a: nat, b: nat): seq<nat>
    decreases b - a
  {
    if a >= b then [] else [a] + Range(a + 1, b)
  }

  // ---------------------------------------------------------------------------
  // The lowering as functions of the counter

  /** Instructions appended and the counter value after them. */
  datatype Lowered = Lowered(insts: seq<Inst>, counter: nat)

  /** What lowering one value gives: instructions, the counter after them, and the
      argument that stands for the value. */
  datatype ValueLowered = ValueLowered(insts: seq<Inst>, counter: nat, arg: Arg)

  /** Instructions, counter and the constructor arguments of a parameter suffix. */
  datatype ArgsLowered = ArgsLowered(insts: seq<Inst>, counter: nat, args: seq<Arg>)

  function Opt(tmp: Option<string>): set<string>
  {
    if tmp.Some? then {tmp.value} else {}
  }

  /** The object overload from counter c: the parameters' values are lowered in
      constructor order, then the construction itself is appended, bound to the
      temporary `tmp` when there is one. A missing constructor is an error. */
  function LowerObject(ty: Ty, tmp: Option<string>, fields: seq<JsonField>, c: nat): (r: Result<Lowered>)
    ensures r.Ok? ==> c <= r.value.counter
    ensures r.Ok? ==> Names(r.value.insts) <= TempRange(c, r.value.counter) + Opt(tmp)
    ensures r.Ok? && tmp.Some? ==> tmp.value in Names(r.value.insts)
    decreases fields, 2
  {
    if Constructor(ty).None? then Err("no constructor")
    else
      var cons := Constructor(ty).value;
      var a :- LowerArgs(cons, fields, 0, c);
      var made := Construct(ty, a.args);
      var last := if tmp.None? then made else DefineVar(tmp.value, made);
      NamesAppend(a.insts, [last]);
      assert Names([last]) == InstNames(last);
      Ok(Lowered(a.insts + [last], a.counter))
  }

  /** The parameter loop of the object overload from parameter j: the value of a
      parameter is looked up under its stripped name; a missing one is an error. */
  function LowerArgs(cons: seq<CtorParam>, fields: seq<JsonField>, j: nat, c: nat): (r: Result<ArgsLowered>)
    requires j <= |cons|
    ensures r.Ok? ==> c <= r.value.counter && Names(r.value.insts) <= TempRange(c, r.value.counter)
    ensures r.Ok? ==> |r.value.args| == |cons| - j
    ensures r.Ok? ==> forall k :: j <= k < |cons| ==> Strip(cons[k].name) in JsonKeys(fields)
    ensures r.Ok? ==> forall k :: j <= k < |cons| ==>
              var v := fields[Lookup(fields, Strip(cons[k].name))].value;
              (v.Leaf? ==> r.value.args[k - j] == ExprArg(v.e))
              && (!v.Leaf? ==> r.value.args[k - j].Access? && r.value.args[k - j].name in Names(r.value.insts))
    decreases fields, 1, |cons| - j
  {
    if j == |cons| then Ok(ArgsLowered([], c, []))
    else
      var p := Strip(cons[j].name);
      if p !in JsonKeys(fields) then Err("no value for a constructor parameter")
      else
        var here :- LowerValue(cons[j].ty, fields[Lookup(fields, p)].value, c);
        var rest :- LowerArgs(cons, fields, j + 1, here.counter);
        NamesAppend(here.insts, rest.insts);
        TempRangeGrows(c, c, here.counter, rest.counter);
        TempRangeGrows(c, here.counter, rest.counter, rest.counter);
        Ok(ArgsLowered(here.insts + rest.insts, rest.counter, [here.arg] + rest.args))
  }

  /** One parameter's value: an expression is passed as it is; an object or an array
      is built into a fresh temporary named with the current counter, which the
      argument then reads. */
  function LowerValue(ty: Ty, v: JsonValue, c: nat): (r: Result<ValueLowered>)
    ensures r.Ok? ==> c <= r.value.counter && Names(r.value.insts) <= TempRange(c, r.value.counter)
    ensures r.Ok? && v.Leaf? ==> r.value == ValueLowered([], c, ExprArg(v.e))
    ensures r.Ok? && !v.Leaf? ==> r.value.arg == Access(Temp(c)) && c < r.value.counter
    ensures r.Ok? && !v.Leaf? ==> Temp(c) in Names(r.value.insts)
    decreases v
  {
    match v
    case Leaf(e) => Ok(ValueLowered([], c, ExprArg(e)))
    case Obj(fs) =>
      var sub :- LowerObject(ty, Some(Temp(c)), fs, c + 1);
      TempRangeGrows(c, c + 1, sub.counter, sub.counter);
      assert Temp(c) in TempRange(c, sub.counter);
      Ok(ValueLowered(sub.insts, sub.counter, Access(Temp(c))))
    case Arr(es) =>
      if ElementType(ty).None? then Err("not an array type")
      else
        var sub :- LowerArray(ElementType(ty).value, ty, Temp(c), es, c + 1);
        TempRangeGrows(c, c + 1, sub.counter, sub.counter);
        assert InstNames(sub.insts[0]) <= Names(sub.insts);
        assert Temp(c) in TempRange(c, sub.counter);
        Ok(ValueLowered(sub.insts, sub.counter, Access(Temp(c))))
  }

  /** The array overload from counter c: the temporary `tmp` is defined as a new
      array of exactly as many slots as the literal has elements, then each element
      is assigned in index order. */
  function LowerArray(elem: Ty, arrTy: Ty, tmp: string, es: seq<JsonValue>, c: nat): (r: Result<Lowered>)
    ensures r.Ok? ==> c <= r.value.counter && Names(r.value.insts) <= TempRange(c, r.value.counter) + {tmp}
    ensures r.Ok? ==> |r.value.insts| >= 1 && r.value.insts[0] == DefineVar(tmp, NewArray(arrTy, |es|))
    decreases es, 2
  {
    var rest :- LowerElems(elem, arrTy, tmp, es, 0, c);
    var head := DefineVar(tmp, NewArray(arrTy, |es|));
    NamesAppend([head], rest.insts);
    Ok(Lowered([head] + rest.insts, rest.counter))
  }

  /** The element loop of the array overload from index i. */
  function LowerElems(elem: Ty, arrTy: Ty, tmp: string, es: seq<JsonValue>, i: nat, c: nat): (r: Result<Lowered>)
    requires i <= |es|
    ensures r.Ok? ==> c <= r.value.counter && Names(r.value.insts) <= TempRange(c, r.value.counter) + {tmp}
    decreases es, 1, |es| - i
  {
    if i == |es| then Ok(Lowered([], c))
    else
      var here :- LowerElem(elem, arrTy, tmp, es[i], c);
      var rest :- LowerElems(elem, arrTy, tmp, es, i + 1, here.counter);
      var assign := AssignIndex(tmp, i, here.arg);
      NamesAppend(here.insts, [assign]);
      NamesAppend(here.insts + [assign], rest.insts);
      TempRangeGrows(c, c, here.counter, rest.counter);
      TempRangeGrows(c, here.counter, rest.counter, rest.counter);
      Ok(Lowered(here.insts + [assign] + rest.insts, rest.counter))
  }

  /** One element: an expression is assigned as it is; an object is built into a
      fresh temporary, which the element then reads. An array inside an array is
      built, as the source writes it, into the ENCLOSING array's temporary `tmp`,
      while the element reads the fresh temporary's name. */
  function LowerElem(elem: Ty, arrTy: Ty, tmp: string, v: JsonValue, c: nat): (r: Result<ValueLowered>)
    ensures r.Ok? ==> c <= r.value.counter && Names(r.value.insts) <= TempRange(c, r.value.counter) + {tmp}
    ensures r.Ok? && v.Leaf? ==> r.value == ValueLowered([], c, ExprArg(v.e))
    ensures r.Ok? && !v.Leaf? ==> r.value.arg == Access(Temp(c)) && c < r.value.counter
    ensures r.Ok? && v.Obj? ==> Temp(c) in Names(r.value.insts)
    decreases v
  {
    match v
    case Leaf(e) => Ok(ValueLowered([], c, ExprArg(e)))
    case Obj(fs) =>
      var sub :- LowerObject(elem, Some(Temp(c)), fs, c + 1);
      TempRangeGrows(c, c + 1, sub.counter, sub.counter);
      assert Temp(c) in TempRange(c, sub.counter);
      Ok(ValueLowered(sub.insts, sub.counter, Access(Temp(c))))
    case Arr(inner) =>
      if ElementType(elem).None? || ElementType(arrTy).None? || !ElementType(arrTy).value.Array? then
        Err("not an array type")
      else
        var sub :- LowerArray(ElementType(elem).value, ElementType(arrTy).value, tmp, inner, c + 1);
        TempRangeGrows(c, c + 1, sub.counter, sub.counter);
        Ok(ValueLowered(sub.insts, sub.counter, Access(Temp(c))))
  }

  /** What an array inside an array lowers to: a new definition of the enclosing
      array's temporary, while no instruction defines the temporary the element's
      assignment reads. */
  lemma NestedArrayLowering(elem: Ty, arrTy: Ty, tmp: string, inner: seq<JsonValue>, c: nat)
    requires FreshFrom(tmp, c) && LowerElem(elem, arrTy, tmp, Arr(inner), c).Ok?
    ensures var r := LowerElem(elem, arrTy, tmp, Arr(inner), c).value;
            |r.insts| >= 1 && r.insts[0].DefineVar? && r.insts[0].name == tmp && r.insts[0].init.NewArray?
            && r.arg == Access(Temp(c)) && Temp(c) !in Names(r.insts)
  {
    var r := LowerElem(elem, arrTy, tmp, Arr(inner), c).value;
    assert Temp(c) != tmp;
    if Temp(c) in TempRange(c + 1, r.counter) {
      var k: nat :| c + 1 <= k < r.counter && Temp(c) == Temp(k);
      TempInjective(c, k);
    }
  }

  /** The construction an instruction makes, directly or as a variable's initial value. */
  function Construction(i: Inst): Inst
  {
    if i.DefineVar? then i.init else i
  }

  /** The object overload ends with the construction of the instance, bound to the
      temporary when there is one; its arguments follow the constructor's
      parameters: an expression as written, and for a nested object or array the
      read of a temporary that an earlier instruction of the list defines. */
  lemma ObjectLowering(ty: Ty, tmp: Option<string>, fields: seq<JsonField>, c: nat)
    requires LowerObject(ty, tmp, fields, c).Ok?
    ensures Constructor(ty).Some?
    ensures var insts := LowerObject(ty, tmp, fields, c).value.insts;
            var cons := Constructor(ty).value;
            |insts| >= 1
            && var last := insts[|insts| - 1];
               (tmp.None? ==> last.Construct?) && (tmp.Some? ==> last.DefineVar? && last.name == tmp.value)
               && Construction(last).Construct? && Construction(last).ty == ty
               && |Construction(last).ctorArgs| == |cons|
               && forall k :: 0 <= k < |cons| ==>
                    Strip(cons[k].name) in JsonKeys(fields)
                    && var v := fields[Lookup(fields, Strip(cons[k].name))].value;
                       var arg := Construction(last).ctorArgs[k];
                       (v.Leaf? ==> arg == ExprArg(v.e))
                       && (!v.Leaf? ==> arg.Access? && arg.name in Names(insts[..|insts| - 1]))
  {
    var insts := LowerObject(ty, tmp, fields, c).value.insts;
    var a := LowerArgs(Constructor(ty).value, fields, 0, c).value;
    assert insts[..|insts| - 1] == a.insts;
  }

  /** No element of the literal array is itself an array. */
  predicate NoArrayInArray(es: seq<JsonValue>)
  {
    forall i :: 0 <= i < |es| ==> !es[i].Arr?
  }

  /** The instructions of an element that is not an array never name a temporary
      fresh from c. */
  lemma ElemFree(elem: Ty, arrTy: Ty, tmp: string, v: JsonValue, c: nat)
    requires !v.Arr? && FreshFrom(tmp, c) && LowerElem(elem, arrTy, tmp, v, c).Ok?
    ensures tmp !in Names(LowerElem(elem, arrTy, tmp, v, c).value.insts)
  {
    if v.Obj? {
      var sub := LowerObject(elem, Some(Temp(c)), v.fields, c + 1).value;
      assert Temp(c) != tmp;
      assert tmp !in TempRange(c + 1, sub.counter);
    }
  }

  /** An element that is not an array assigns its own index into the array's
      temporary and nothing else into it. */
  lemma ElemAssignsOnce(elem: Ty, arrTy: Ty, tmp: string, es: seq<JsonValue>, i: nat, c: nat, here: ValueLowered)
    requires i < |es| && !es[i].Arr? && FreshFrom(tmp, c) && LowerElem(elem, arrTy, tmp, es[i], c) == Ok(here)
    requires LowerElems(elem, arrTy, tmp, es, i, c).Ok?
    ensures Assigned(LowerElems(elem, arrTy, tmp, es, i, c).value.insts, tmp)
            == [i] + Assigned(LowerElems(elem, arrTy, tmp, es, i + 1, here.counter).value.insts, tmp)
  {
    var rest := LowerElems(elem, arrTy, tmp, es, i + 1, here.counter).value;
    var assign := AssignIndex(tmp, i, here.arg);
    assert Assigned(here.insts, tmp) == [] by {
      ElemFree(elem, arrTy, tmp, es[i], c);
      AssignedNone(here.insts, tmp);
    }
    assert LowerElems(elem, arrTy, tmp, es, i, c).value.insts == here.insts + [assign] + rest.insts;
    assert Assigned([assign], tmp) == [i];
    AssignedAppend(here.insts, [assign], tmp);
    AssignedAppend(here.insts + [assign], rest.insts, tmp);
    assert Assigned(here.insts + [assign], tmp) == [i];
  }

  /** The element loop assigns into the array's temporary exactly the indices from
      i on, ascending, when no element is an array and the temporary is not one of
      the names still to be made. */
  lemma {:induction false} ElemsAssignInOrder(elem: Ty, arrTy: Ty, tmp: string, es: seq<JsonValue>, i: nat, c: nat)
    requires i <= |es| && NoArrayInArray(es) && FreshFrom(tmp, c)
    requires LowerElems(elem, arrTy, tmp, es, i, c).Ok?
    ensures Assigned(LowerElems(elem, arrTy, tmp, es, i, c).value.insts, tmp) == Range(i, |es|)
    decreases |es| - i
  {
    if i < |es| {
      var here := LowerElem(elem, arrTy, tmp, es[i], c).value;
      ElemAssignsOnce(elem, arrTy, tmp, es, i, c, here);
      ElemsAssignInOrder(elem, arrTy, tmp, es, i + 1, here.counter);
    }
  }

  /** The array overload allocates exactly as many slots as the literal has
      elements and then assigns every index once, in ascending order (for literals
      without an array directly inside the array, and a temporary not made later). */
  lemma ArrayLowering(elem: Ty, arrTy: Ty, tmp: string, es: seq<JsonValue>, c: nat)
    requires NoArrayInArray(es) && FreshFrom(tmp, c)
    requires LowerArray(elem, arrTy, tmp, es, c).Ok?
    ensures var r := LowerArray(elem, arrTy, tmp, es, c).value;
            r.insts[0] == DefineVar(tmp, NewArray(arrTy, |es|)) && Assigned(r.insts, tmp) == Range(0, |es|)
  {
    var rest := LowerElems(elem, arrTy, tmp, es, 0, c).value;
    var head := DefineVar(tmp, NewArray(arrTy, |es|));
    ElemsAssignInOrder(elem, arrTy, tmp, es, 0, c);
    AssignedAppend([head], rest.insts, tmp);
  }

  /** A parameter's value gets the temporary made with the counter value before it;
      so the temporary of a nested value in lowering from counter c is fresh from c. */
  lemma TempFresh(c: nat)
    ensures FreshFrom(Temp(c), c + 1)
  {
    forall k: nat | c + 1 <= k ensures Temp(k) != Temp(c) {
      if Temp(k) == Temp(c) {
        TempInjective(k, c);
      }
    }
  }

  lemma Assoc<T>(a: seq<T>, b: seq<T>, c: seq<T>)
    ensures a + (b + c) == (a + b) + c
  {
  }

  /** The state of the parameter loop at parameter j, counter c, with `done` and
      `args` made so far, against the whole loop's outcome r0. */
  predicate ArgsProgress(r0: Result<ArgsLowered>, cons: seq<CtorParam>, fields: seq<JsonField>, j: nat, c: nat,
                         done: seq<Inst>, args: seq<Arg>)
    requires j <= |cons|
  {
    var r := LowerArgs(cons, fields, j, c);
    (r0.Ok? <==> r.Ok?) && (r.Err? ==> r0 == r)
    && (r.Ok? ==> r0.value.insts == done + r.value.insts && r0.value.counter == r.value.counter)
    && (r.Ok? ==> r0.value.args == args + r.value.args)
  }

  /** One turn of the parameter loop keeps its state. */
  lemma ArgsAdvance(r0: Result<ArgsLowered>, cons: seq<CtorParam>, fields: seq<JsonField>, j: nat, c: nat,
                    done: seq<Inst>, args: seq<Arg>, here: ValueLowered)
    requires j < |cons| && Strip(cons[j].name) in JsonKeys(fields)
    requires LowerValue(cons[j].ty, fields[Lookup(fields, Strip(cons[j].name))].value, c) == Ok(here)
    requires ArgsProgress(r0, cons, fields, j, c, done, args)
    ensures ArgsProgress(r0, cons, fields, j + 1, here.counter, done + here.insts, args + [here.arg])
  {
    var rest := LowerArgs(cons, fields, j + 1, here.counter);
    if rest.Ok? {
      Assoc(done, here.insts, rest.value.insts);
      Assoc(args, [here.arg], rest.value.args);
    }
  }

  /** At the end of the parameter loop, its state is the whole outcome. */
  lemma ArgsDone(r0: Result<ArgsLowered>, cons: seq<CtorParam>, fields: seq<JsonField>, c: nat,
                 done: seq<Inst>, args: seq<Arg>)
    requires ArgsProgress(r0, cons, fields, |cons|, c, done, args)
    ensures r0 == Ok(ArgsLowered(done, c, args))
  {
    assert done + [] == done && args + [] == args;
  }

  /** The state of the element loop at index i, counter c, with `done` made so far
      (after the array's definition), against the whole loop's outcome r0. */
  predicate ElemsProgress(r0: Result<Lowered>, elem: Ty, arrTy: Ty, tmp: string, es: seq<JsonValue>, i: nat, c: nat,
                          done: seq<Inst>)
    requires i <= |es|
  {
    var r := LowerElems(elem, arrTy, tmp, es, i, c);
    (r0.Ok? <==> r.Ok?) && (r.Err? ==> r0 == r)
    && (r.Ok? ==> r0.value.insts == done + r.value.insts && r0.value.counter == r.value.counter)
  }

  /** One turn of the element loop keeps its state. */
  lemma ElemsAdvance(r0: Result<Lowered>, elem: Ty, arrTy: Ty, tmp: string, es: seq<JsonValue>, i: nat, c: nat,
                     done: seq<Inst>, here: ValueLowered)
    requires i < |es| && LowerElem(elem, arrTy, tmp, es[i], c) == Ok(here)
    requires ElemsProgress(r0, elem, arrTy, tmp, es, i, c, done)
    ensures ElemsProgress(r0, elem, arrTy, tmp, es, i + 1, here.counter,
                          done + here.insts + [AssignIndex(tmp, i, here.arg)])
  {
    var rest := LowerElems(elem, arrTy, tmp, es, i + 1, here.counter);
    var assign := AssignIndex(tmp, i, here.arg);
    if rest.Ok? {
      Assoc(done, here.insts + [assign], rest.value.insts);
      Assoc(done, here.insts, [assign]);
    }
  }

  /** At the end of the element loop, its state is the whole outcome. */
  lemma ElemsDone(r0: Result<Lowered>, elem: Ty, arrTy: Ty, tmp: string, es: seq<JsonValue>, c: nat,
                  done: seq<Inst>)
    requires ElemsProgress(r0, elem, arrTy, tmp, es, |es|, c, done)
    ensures r0 == Ok(Lowered(done, c))
  {
    assert done + [] == done;
  }

  // ---------------------------------------------------------------------------
  // The generator: the instruction list it appends to and the counter of the
  // type context it takes temporaries from

  class Generator {
    /** The instructions generated so far. */
    var instList: seq<Inst>
    /** The type context's counter of temporaries. */
    var counter: nat

    constructor (counter0: nat)
      ensures instList == [] && counter == counter0
    {
      instList := [];
      counter := counter0;
    }

    /** TypeContext.nextCounter: the current value, then one more. */
    method NextCounter() returns (k: nat)
      modifies this
      ensures k == old(counter) && counter == old(counter) + 1 && instList == old(instList)
    {
      k := counter;
      counter := counter + 1;
    }

    /** The object overload: appends what LowerObject describes, from the current
        counter, or reports its error. */
    method GenerateObject(ty: Ty, tmp: Option<string>, fields: seq<JsonField>) returns (err: Option<string>)
      modifies this
      ensures var r := LowerObject(ty, tmp, fields, old(counter));
              (err.None? <==> r.Ok?) && (r.Err? ==> err == Some(r.msg))
              && (r.Ok? ==> instList == old(instList) + r.value.insts && counter == r.value.counter)
      decreases fields, 2
    {
      if Constructor(ty).None? {
        return Some("no constructor");
      }
      var cons := Constructor(ty).value;
      var args;
      err, args := GenerateArgs(cons, fields);
      if err.Some? {
        return;
      }
      ghost var a := LowerArgs(cons, fields, 0, old(counter)).value;
      var made := Construct(ty, args);
      var last := if tmp.None? then made else DefineVar(tmp.value, made);
      Assoc(old(instList), a.insts, [last]);
      instList := instList + [last];
    }

    /** The parameter loop of the object overload: appends what LowerArgs
        describes from parameter 0 and gives the constructor's arguments, or
        reports its error. */
    method GenerateArgs(cons: seq<CtorParam>, fields: seq<JsonField>) returns (err: Option<string>, args: seq<Arg>)
      modifies this
      ensures var r := LowerArgs(cons, fields, 0, old(counter));
              (err.None? <==> r.Ok?) && (r.Err? ==> err == Some(r.msg))
              && (r.Ok? ==> instList == old(instList) + r.value.insts && counter == r.value.counter && args == r.value.args)
      decreases fields, 1
    {
      ghost var r0 := LowerArgs(cons, fields, 0, counter);
      ghost var done: seq<Inst> := [];
      args := [];
      var j := 0;
      assert [] + [] == done && args + [] == args;
      while j < |cons|
        invariant 0 <= j <= |cons| && instList == old(instList) + done
        invariant ArgsProgress(r0, cons, fields, j, counter, done, args)
      {
        var p := Strip(cons[j].name);
        if p !in JsonKeys(fields) {
          return Some("no value for a constructor parameter"), args;
        }
        ghost var c := counter;
        var arg;
        err, arg := GenerateValue(cons[j].ty, fields[Lookup(fields, p)].value);
        if err.Some? {
          return;
        }
        ghost var here := LowerValue(cons[j].ty, fields[Lookup(fields, p)].value, c).value;
        ArgsAdvance(r0, cons, fields, j, c, done, args, here);
        Assoc(old(instList), done, here.insts);
        done := done + here.insts;
        args := args + [arg];
        j := j + 1;
      }
      ArgsDone(r0, cons, fields, counter, done, args);
      err := None;
    }

    /** One parameter's value: appends what LowerValue describes and gives the
        argument standing for it. */
    method GenerateValue(ty: Ty, v: JsonValue) returns (err: Option<string>, arg: Arg)
      modifies this
      ensures var r := LowerValue(ty, v, old(counter));
              (err.None? <==> r.Ok?) && (r.Err? ==> err == Some(r.msg))
              && (r.Ok? ==> instList == old(instList) + r.value.insts && counter == r.value.counter && arg == r.value.arg)
      decreases v
    {
      arg := Access("");
      if v.Leaf? {
        return None, ExprArg(v.e);
      }
      var k := NextCounter();
      var varname := Temp(k);
      if v.Obj? {
        err := GenerateObject(ty, Some(varname), v.fields);
      } else if ElementType(ty).None? {
        return Some("not an array type"), arg;
      } else {
        err := GenerateArray(ElementType(ty).value, ty, varname, v.elems);
      }
      arg := Access(varname);
    }

    /** The array overload: appends what LowerArray describes, from the current
        counter, or reports its error. */
    method GenerateArray(elem: Ty, arrTy: Ty, tmp: string, es: seq<JsonValue>) returns (err: Option<string>)
      modifies this
      ensures var r := LowerArray(elem, arrTy, tmp, es, old(counter));
              (err.None? <==> r.Ok?) && (r.Err? ==> err == Some(r.msg))
              && (r.Ok? ==> instList == old(instList) + r.value.insts && counter == r.value.counter)
      decreases es, 2
    {
      var head := DefineVar(tmp, NewArray(arrTy, |es|));
      instList := instList + [head];
      err := AssignElements(elem, arrTy, tmp, es);
      ghost var rest := LowerElems(elem, arrTy, tmp, es, 0, old(counter));
      if rest.Ok? {
        Assoc(old(instList), [head], rest.value.insts);
      }
    }

    /** The element loop of the array overload: appends what LowerElems describes
        from index 0, or reports its error. */
    method AssignElements(elem: Ty, arrTy: Ty, tmp: string, es: seq<JsonValue>) returns (err: Option<string>)
      modifies this
      ensures var r := LowerElems(elem, arrTy, tmp, es, 0, old(counter));
              (err.None? <==> r.Ok?) && (r.Err? ==> err == Some(r.msg))
              && (r.Ok? ==> instList == old(instList) + r.value.insts && counter == r.value.counter)
      decreases es, 1
    {
      ghost var r0 := LowerElems(elem, arrTy, tmp, es, 0, counter);
      ghost var done: seq<Inst> := [];
      var i := 0;
      while i < |es|
        invariant 0 <= i <= |es| && instList == old(instList) + done
        invariant ElemsProgress(r0, elem, arrTy, tmp, es, i, counter, done)
      {
        ghost var c := counter;
        var value;
        err, value := GenerateElem(elem, arrTy, tmp, es[i]);
        if err.Some? {
          return;
        }
        ghost var here := LowerElem(elem, arrTy, tmp, es[i], c).value;
        ElemsAdvance(r0, elem, arrTy, tmp, es, i, c, done, here);
        var assign := AssignIndex(tmp, i, value);
        Assoc(old(instList), done, here.insts);
        Assoc(old(instList), done + here.insts, [assign]);
        instList := instList + [assign];
        done := done + here.insts + [assign];
        i := i + 1;
      }
      ElemsDone(r0, elem, arrTy, tmp, es, counter, done);
      err := None;
    }

    /** One element: appends what LowerElem describes and gives the value assigned
        into the array. */
    method GenerateElem(elem: Ty, arrTy: Ty, tmp: string, e: JsonValue) returns (err: Option<string>, value: Arg)
      modifies this
      ensures var r := LowerElem(elem, arrTy, tmp, e, old(counter));
              (err.None? <==> r.Ok?) && (r.Err? ==> err == Some(r.msg))
              && (r.Ok? ==> instList == old(instList) + r.value.insts && counter == r.value.counter && value == r.value.arg)
      decreases e
    {
      value := Access("");
      if e.Leaf? {
        return None, ExprArg(e.e);
      }
      var k := NextCounter();
      var varname := Temp(k);
      if e.Obj? {
        err := GenerateObject(elem, Some(varname), e.fields);
      } else if ElementType(elem).None? || ElementType(arrTy).None? || !ElementType(arrTy).value.Array? {
        return Some("not an array type"), value;
      } else {
        err := GenerateArray(ElementType(elem).value, ElementType(arrTy).value, tmp, e.elems);
      }
      value := Access(varname);
    }

    /** NewInstanceWithJson._generateInstruction: the object overload into a new
        list, without a temporary; the result is one composite instruction. */
    method Lower(ty: Ty, fields: seq<JsonField>) returns (r: Result<Inst>)
      modifies this
      ensures var spec := LowerObject(ty, None, fields, old(counter));
              (r.Ok? <==> spec.Ok?) && (spec.Err? ==> r == Err(spec.msg))
              && (spec.Ok? ==> r == Ok(CompositeInst(spec.value.insts)) && counter == spec.value.counter)
    {
      instList := [];
      var err := GenerateObject(ty, None, fields);
      if err.Some? {
        return Err(err.value);
      }
      assert instList == LowerObject(ty, None, fields, old(counter)).value.insts by {
        assert [] + instList == instList;
      }
      r := Ok(CompositeInst(instList));
    }
  }
}
