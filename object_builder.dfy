/** A builder for JSON objects (vjson/util/ObjectBuilder.kt): an ordered list of
    entries, appended to one at a time, where the `@type` entry always goes first. */
module ObjectBuilding {
  import opened Wrappers

  type Int32 = x: int | -0x8000_0000 <= x < 0x8000_0000
  type Int64 = x: int | -0x8000_0000_0000_0000 <= x < 0x8000_0000_0000_0000

  /** The JSON instances a builder stores. A double is an opaque payload: its
      floating-point meaning is not part of this model. */
  datatype Instance =
    | SimpleNull
    | SimpleBool(b: bool)
    | SimpleInteger(i: Int32)
    | SimpleLong(l: Int64)
    | SimpleDouble(d: nat)
    | SimpleExp(num: nat, exponent: Int32)
    | SimpleString(s: string)
    | SimpleArray(elements: seq<Instance>)
    | SimpleObject(entries: seq<Entry>)

  datatype Entry = Entry(key: string, value: Instance)

  const TypeKey: string := "@type"

  /** The entry list after putInst: an `@type` entry goes in front of all others,
      any other entry after all others. Keys are never merged. */
  function Insert(es: seq<Entry>, e: Entry): (r: seq<Entry>)
    ensures |r| == |es| + 1
    ensures multiset(r) == multiset(es) + multiset{e}
    ensures e.key == TypeKey ==> r[0] == e && r[1..] == es
    ensures e.key != TypeKey ==> r[..|es|] == es && r[|es|] == e
  {
    if e.key == TypeKey then [e] + es else es + [e]
  }

  /** The entry list of a builder made from an object: its entries replayed, in
      order, through putInst. */
  function Replay(o: seq<Entry>): (r: seq<Entry>)
    ensures |r| == |o|
  {
    if o == [] then [] else Insert(Replay(o[..|o| - 1]), o[|o| - 1])
  }

  predicate NoTypeKey(o: seq<Entry>)
  {
    forall i :: 0 <= i < |o| ==> o[i].key != TypeKey
  }

  /** The entries that are not `@type`, in their order. */
  function Untyped(o: seq<Entry>): (r: seq<Entry>)
    ensures NoTypeKey(r)
    ensures |r| <= |o|
  {
    if o == [] then []
    else if o[|o| - 1].key == TypeKey then Untyped(o[..|o| - 1])
    else Untyped(o[..|o| - 1]) + [o[|o| - 1]]
  }

  lemma UntypedPrepend(e: Entry, o: seq<Entry>)
    requires e.key == TypeKey
    ensures Untyped([e] + o) == Untyped(o)
    decreases |o|
  {
    if o != [] {
      assert ([e] + o)[..|o|] == [e] + o[..|o| - 1];
      UntypedPrepend(e, o[..|o| - 1]);
    }
  }

  /** Replaying keeps every entry: the result is a permutation of the object. */
  lemma {:induction false} ReplayPermutes(o: seq<Entry>)
    ensures multiset(Replay(o)) == multiset(o)
  {
    if o != [] {
      ReplayPermutes(o[..|o| - 1]);
      assert o == o[..|o| - 1] + [o[|o| - 1]];
    }
  }

  /** Replaying keeps the order of the entries other than `@type`. */
  lemma {:induction false} ReplayKeepsOrder(o: seq<Entry>)
    ensures Untyped(Replay(o)) == Untyped(o)
  {
    if o != [] {
      var init := o[..|o| - 1];
      var e := o[|o| - 1];
      ReplayKeepsOrder(init);
      var r := Replay(init);
      if e.key == TypeKey {
        UntypedPrepend(e, r);
      } else {
        assert (r + [e])[..|r|] == r;
      }
    }
  }

  /** An object without `@type` is rebuilt exactly as it was. */
  lemma {:induction false} ReplayUntyped(o: seq<Entry>)
    requires NoTypeKey(o)
    ensures Replay(o) == o
  {
    if o != [] {
      ReplayUntyped(o[..|o| - 1]);
      assert o == o[..|o| - 1] + [o[|o| - 1]];
    }
  }

  /** An object holding `@type` is rebuilt with its last `@type` entry first. */
  lemma {:induction false} ReplayTypeFirst(o: seq<Entry>, k: nat)
    requires k < |o| && o[k].key == TypeKey
    requires forall j :: k < j < |o| ==> o[j].key != TypeKey
    ensures Replay(o)[0] == o[k]
  {
    if k < |o| - 1 {
      ReplayTypeFirst(o[..|o| - 1], k);
    }
  }

  class ObjectBuilder {
    var entries: seq<Entry>

    constructor()
      ensures entries == []
    {
      entries := [];
    }

    /** The copy constructor: every entry of the object goes through putInst. */
    constructor FromObject(o: seq<Entry>)
      ensures entries == Replay(o)
    {
      entries := [];
      new;
      var i := 0;
      while i < |o|
        invariant 0 <= i <= |o|
        invariant entries == Replay(o[..i])
      {
        assert o[..i + 1][..i] == o[..i];
        var _ := PutInst(o[i].key, o[i].value);
        i := i + 1;
      }
      assert o[..|o|] == o;
    }

    method PutInst(key: string, inst: Instance) returns (self: ObjectBuilder)
      modifies this
      ensures self == this
      ensures entries == Insert(old(entries), Entry(key, inst))
    {
      if key == TypeKey {
        entries := [Entry(key, inst)] + entries;
      } else {
        entries := entries + [Entry(key, inst)];
      }
      self := this;
    }

    /** With isNull a null is stored and the supplied instance is ignored. */
    method PutNullableInst(key: string, isNull: bool, supplier: () -> Instance) returns (self: ObjectBuilder)
      modifies this
      ensures self == this
      ensures entries == Insert(old(entries), Entry(key, if isNull then SimpleNull else supplier()))
    {
      if isNull {
        self := PutString(key, None);
      } else {
        self := PutInst(key, supplier());
      }
    }

    method PutBool(key: string, b: bool) returns (self: ObjectBuilder)
      modifies this
      ensures self == this
      ensures entries == Insert(old(entries), Entry(key, SimpleBool(b)))
    {
      self := PutInst(key, SimpleBool(b));
    }

    method PutInt(key: string, i: Int32) returns (self: ObjectBuilder)
      modifies this
      ensures self == this
      ensures entries == Insert(old(entries), Entry(key, SimpleInteger(i)))
    {
      self := PutInst(key, SimpleInteger(i));
    }

    method PutLong(key: string, l: Int64) returns (self: ObjectBuilder)
      modifies this
      ensures self == this
      ensures entries == Insert(old(entries), Entry(key, SimpleLong(l)))
    {
      self := PutInst(key, SimpleLong(l));
    }

    method PutDouble(key: string, d: nat) returns (self: ObjectBuilder)
      modifies this
      ensures self == this
      ensures entries == Insert(old(entries), Entry(key, SimpleDouble(d)))
    {
      self := PutInst(key, SimpleDouble(d));
    }

    method PutExp(key: string, num: nat, exponent: Int32) returns (self: ObjectBuilder)
      modifies this
      ensures self == this
      ensures entries == Insert(old(entries), Entry(key, SimpleExp(num, exponent)))
    {
      self := PutInst(key, SimpleExp(num, exponent));
    }

    /** A missing string is stored as null. */
    method PutString(key: string, s: Option<string>) returns (self: ObjectBuilder)
      modifies this
      ensures self == this
      ensures entries == Insert(old(entries), Entry(key, if s.None? then SimpleNull else SimpleString(s.value)))
    {
      if s.None? {
        self := PutInst(key, SimpleNull);
      } else {
        self := PutInst(key, SimpleString(s.value));
      }
    }

    /** putObject, given the builder its callback has already filled. */
    method PutObject(key: string, inner: ObjectBuilder) returns (self: ObjectBuilder)
      modifies this
      ensures self == this
      ensures entries == Insert(old(entries), Entry(key, SimpleObject(old(inner.entries))))
    {
      var o := inner.Build();
      self := PutInst(key, o);
    }

    /** putArray, given the elements its callback has already added. */
    method PutArray(key: string, elements: seq<Instance>) returns (self: ObjectBuilder)
      modifies this
      ensures self == this
      ensures entries == Insert(old(entries), Entry(key, SimpleArray(elements)))
    {
      self := PutInst(key, SimpleArray(elements));
    }

    /** type(t): the `@type` entry, which goes in front. */
    method Type(t: string) returns (self: ObjectBuilder)
      modifies this
      ensures self == this
      ensures entries == [Entry(TypeKey, SimpleString(t))] + old(entries)
    {
      self := PutInst(TypeKey, SimpleString(t));
    }

    method Build() returns (o: Instance)
      ensures o == SimpleObject(entries)
    {
      o := SimpleObject(entries);
    }
  }
}
