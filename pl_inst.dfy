/** The instructions the embedded language is lowered to (vjson/pl/inst), as far
    as the lowering of the modelled nodes produces them. */
module PlInst {
  import opened Wrappers
  import opened PlTypes
  import opened PlSyntax

  /** An argument of a generated construction or assignment: an expression of the
      program passed through as it is, or the read of a temporary variable. */
  datatype Arg = ExprArg(e: Expr) | Access(name: string)

  datatype Inst =
    | NegativeInt(v: Inst) | NegativeLong(v: Inst) | NegativeFloat(v: Inst) | NegativeDouble(v: Inst)
    | LiteralInt(i: int) | LiteralLong(l: int) | LiteralNull
    | Invoke(target: Inst, args: seq<Inst>, desc: FuncDesc)
    | CompositeInst(insts: seq<Inst>)
    | Construct(ty: Ty, ctorArgs: seq<Arg>)
    | DefineVar(name: string, init: Inst)
    | NewArray(arrTy: Ty, size: nat)
    | AssignIndex(arrayName: string, index: nat, value: Arg)
    | ThrowInst(operand: Option<Inst>)
    | ErrorHandlingInst(tryInsts: seq<Inst>, errorInsts: seq<Inst>, elseInsts: seq<Inst>)
    | NoOp
    | OtherInst(id: nat)
}
