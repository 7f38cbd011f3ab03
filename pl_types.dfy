/** Static types of the embedded language (vjson/pl/type): the kinds a value can
    have, the descriptors the checker asks a type for, the field tables of the
    array, collection and iterator types, and the type scope. */
module PlTypes {
  import opened Wrappers

  /** The six value-holder slots a value of some type travels in. */
  datatype Slot = IntSlot | LongSlot | FloatSlot | DoubleSlot | BoolSlot | RefSlot

  /** How many memory cells of each kind a frame needs (RuntimeMemoryTotal). */
  datatype MemTotal = MemTotal(ints: nat, longs: nat, floats: nat, doubles: nat, bools: nat, refs: nat)

  const ZeroTotal: MemTotal := MemTotal(0, 0, 0, 0, 0, 0)

  /** A parameter of a function descriptor: its type and the memory index it is
      bound to in the callee's frame. */
  datatype ParamInstance = ParamInstance(ty: Ty, memIndex: nat)

  /** A named constructor parameter. */
  datatype CtorParam = CtorParam(name: string, ty: Ty)

  datatype FuncDesc = FuncDesc(params: seq<ParamInstance>, returnType: Ty, mem: MemTotal)

  /** The type kinds. A composite (class or library) type may have a constructor
      and may be a template with a number of type parameters; a collection and the
      iterator types are the library types whose field tables are modelled here. */
  datatype Ty =
    | Int | Long | Float | Double | Bool | Null | Error | Str
    | Array(elem: Ty)
    | Func(desc: FuncDesc)
    | Composite(name: string, ctor: Option<seq<CtorParam>>, typeParams: Option<nat>)
    | Collection(alias: string, elem: Ty)
    | CollectionIterator(elem: Ty)
    | Iterator(template: Ty, elem: Ty)

  predicate IsNumeric(t: Ty)
  {
    t == Int || t == Long || t == Float || t == Double
  }

  /** The slot a value of type t is held in: the five primitive kinds have their own,
      every other type is a reference. */
  function SlotOf(t: Ty): (s: Slot)
    ensures s == RefSlot <==> t !in {Int, Long, Float, Double, Bool}
    ensures s == IntSlot <==> t == Int
    ensures s == LongSlot <==> t == Long
    ensures s == FloatSlot <==> t == Float
    ensures s == DoubleSlot <==> t == Double
    ensures s == BoolSlot <==> t == Bool
  {
    match t
    case Int => IntSlot
    case Long => LongSlot
    case Float => FloatSlot
    case Double => DoubleSlot
    case Bool => BoolSlot
    case _ => RefSlot
  }

  /** TypeInstance.functionDescriptor: present for function types only. */
  function FunctionDescriptor(t: Ty): (r: Option<FuncDesc>)
    ensures r.Some? <==> t.Func?
  {
    if t.Func? then Some(t.desc) else None
  }

  /** TypeInstance.constructor: present for composite types that declare one. */
  function Constructor(t: Ty): (r: Option<seq<CtorParam>>)
    ensures r.Some? ==> t.Composite?
  {
    if t.Composite? then t.ctor else None
  }

  /** TypeInstance.elementType: ArrayTypeInstance gives its constructor argument;
      other types have none. */
  function ElementType(t: Ty): (r: Option<Ty>)
    ensures r.Some? <==> t.Array?
    ensures t.Array? ==> r == Some(t.elem)
  {
    if t.Array? then Some(t.elem) else None
  }

  /** The memory footprint of an array type: one counter set, the rest zero. */
  const ArrayMemory: MemTotal := MemTotal(1, 0, 0, 0, 0, 0)

  /** What executing a field does, when it is computed rather than stored. */
  datatype FieldImpl =
    | Stored
    | ArrayLength(kind: Slot)
    | IteratorHasNext
    | IteratorNext(kind: Slot)

  datatype MemPos = MemPos(depth: nat, index: nat)

  datatype Field = Field(name: string, ty: Ty, pos: MemPos, mutable: bool, impl: FieldImpl)

  /** ArrayTypeInstance.field: `length` only, an immutable int at (0, 0) whose
      implementation is chosen by the element kind. */
  function ArrayField(elem: Ty, name: string): (r: Option<Field>)
    ensures r.Some? <==> name == "length"
    ensures r.Some? ==> r.value.ty == Int && r.value.pos == MemPos(0, 0) && !r.value.mutable
                        && r.value.impl == ArrayLength(SlotOf(elem)) && r.value.name == name
  {
    if name == "length" then Some(Field(name, Int, MemPos(0, 0), false, ArrayLength(SlotOf(elem))))
    else None
  }

  /** The descriptor of `add` and `remove`: one element parameter at index 0, a
      boolean result; the dummy allocator reserves no memory. */
  function ElementPredicate(elem: Ty): (f: Ty)
    ensures f.Func? && f.desc.params == [ParamInstance(elem, 0)] && f.desc.returnType == Bool
  {
    Func(FuncDesc([ParamInstance(elem, 0)], Bool, ZeroTotal))
  }

  /** CollectionType.field: size, add, remove and iterator, each an immutable stored
      field at (0, 0). */
  function CollectionField(elem: Ty, name: string): (r: Option<Field>)
    ensures r.Some? <==> name in {"size", "add", "remove", "iterator"}
    ensures r.Some? ==> r.value.name == name && r.value.pos == MemPos(0, 0) && !r.value.mutable
                        && r.value.impl == Stored
    ensures name == "size" ==> r.value.ty == Int
    ensures name == "add" || name == "remove" ==> r.value.ty == ElementPredicate(elem)
    ensures name == "iterator" ==> r.value.ty == CollectionIterator(elem)
  {
    var ty: Option<Ty> :=
      if name == "size" then Some(Int)
      else if name == "add" then Some(ElementPredicate(elem))
      else if name == "remove" then Some(ElementPredicate(elem))
      else if name == "iterator" then Some(CollectionIterator(elem))
      else None;
    if ty.None? then None else Some(Field(name, ty.value, MemPos(0, 0), false, Stored))
  }

  /** The collection's inner iterator type: hasNext and next. */
  function CollectionIteratorField(elem: Ty, name: string): (r: Option<Field>)
    ensures r.Some? <==> name in {"hasNext", "next"}
    ensures r.Some? ==> r.value.name == name && r.value.pos == MemPos(0, 0) && !r.value.mutable
    ensures name == "hasNext" ==> r.value.ty == Bool
    ensures name == "next" ==> r.value.ty == elem
  {
    if name == "hasNext" then Some(Field(name, Bool, MemPos(0, 0), false, Stored))
    else if name == "next" then Some(Field(name, elem, MemPos(0, 0), false, Stored))
    else None
  }

  /** IteratorType.field: hasNext, a boolean read from the host iterator, and next,
      whose implementation writes the slot of the element kind. */
  function IteratorField(elem: Ty, name: string): (r: Option<Field>)
    ensures r.Some? <==> name in {"hasNext", "next"}
    ensures r.Some? ==> r.value.name == name && r.value.pos == MemPos(0, 0)
    ensures name == "hasNext" ==> r.value.ty == Bool && r.value.impl == IteratorHasNext
    ensures name == "next" ==> r.value.ty == elem && r.value.impl == IteratorNext(SlotOf(elem))
  {
    if name == "hasNext" then Some(Field(name, Bool, MemPos(0, 0), false, IteratorHasNext))
    else if name == "next" then Some(Field(name, elem, MemPos(0, 0), false, IteratorNext(SlotOf(elem))))
    else None
  }

  /** IteratorType.templateType and templateTypeParams. */
  function TemplateTypeParams(t: Ty): (r: seq<Ty>)
    requires t.Iterator?
    ensures r == [t.elem] && |r| == 1
  {
    [t.elem]
  }

  /** A variable known to a scope. */
  datatype Variable = Variable(name: string, ty: Ty, mutable: bool, pos: MemPos)

  /** A type scope (TypeContext): the types and variables defined in it, and the
      enclosing scope. */
  datatype Scope = Scope(types: map<string, Ty>, vars: map<string, Variable>, parent: Option<Scope>)

  /** A fresh scope nested in s. */
  function Child(s: Scope): (r: Scope)
    ensures r.types == map[] && r.vars == map[] && r.parent == Some(s)
  {
    Scope(map[], map[], Some(s))
  }

  function AddType(s: Scope, name: string, t: Ty): (r: Scope)
    ensures r.types == s.types[name := t] && r.vars == s.vars && r.parent == s.parent
  {
    s.(types := s.types[name := t])
  }

  /** CollectionType.initiate: the collection under its alias and its iterator type
      under alias + ".Iterator", and nothing else. */
  function CollectionInitiate(s: Scope, alias: string, elem: Ty): (r: Scope)
    ensures r.types.Keys == s.types.Keys + {alias, alias + ".Iterator"}
    ensures alias + ".Iterator" != alias ==> r.types[alias] == Collection(alias, elem)
    ensures r.types[alias + ".Iterator"] == CollectionIterator(elem)
    ensures forall k :: k in s.types && k != alias && k != alias + ".Iterator" ==> r.types[k] == s.types[k]
    ensures r.vars == s.vars && r.parent == s.parent
  {
    AddType(AddType(s, alias, Collection(alias, elem)), alias + ".Iterator", CollectionIterator(elem))
  }
}
