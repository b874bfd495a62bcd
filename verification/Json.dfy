/**
 Value trees before and after stable serialisation. Text escaping is left to the serialiser, so a
 document is its tree; what matters here is which trees can differ for the same data.
 */
module Json {

  import opened Wrappers
  import opened Sorting
  import opened Sequences
  import Numerals

  // Object keys are named by their position in alphabetical order.
  type Key = nat

  /** A value of type P is already plain text, number or truth value, and is written as it is. */
  datatype Value<P> =
    | Undefined
    | Plain(plain: P)
    | BigInteger(amount: nat)
    | Text(text: string)
    | List(items: seq<Value<P>>)
    | Object(fields: seq<Field<P>>)

  datatype Field<P> = Field(key: Key, value: Value<P>)

  function KeyOrder<P>(): (Field<P>, Field<P>) -> bool {
    (x: Field<P>, y: Field<P>) => x.key <= y.key
  }

  /** Serialisable form: amounts as decimal text, undefined members gone, keys in order. */
  function Stable<P>(v: Value<P>): Value<P> {
    match v
    case BigInteger(n) => Text(Numerals.Print(n, Numerals.Ten))
    case List(items) => List(StableItems(items))
    case Object(fields) => Object(Sort(KeyOrder(), StableFields(fields)))
    case _ => v
  }

  function StableItems<P>(items: seq<Value<P>>): (r: seq<Value<P>>)
    ensures |r| == |items|
    ensures forall i :: 0 <= i < |items| ==> r[i] == Stable(items[i])
  {
    if items == [] then [] else [Stable(items[0])] + StableItems(items[1..])
  }

  function StableFields<P>(fields: seq<Field<P>>): seq<Field<P>> {
    if fields == [] then []
    else
      StableField(fields[0]) + StableFields(fields[1..])
  }

  function StableField<P>(f: Field<P>): seq<Field<P>> {
    if f.value.Undefined? then [] else [Field(f.key, Stable(f.value))]
  }

  function Get<P>(fields: seq<Field<P>>, key: Key): Option<Value<P>> {
    if fields == [] then None
    else if fields[0].key == key then Some(fields[0].value)
    else Get(fields[1..], key)
  }

  /** No key occurs twice, as in every object. */
  ghost predicate Functional<P(!new)>(fields: seq<Field<P>>) {
    forall f, g :: f in fields && g in fields && f.key == g.key ==> f == g
  }

  lemma {:induction false} GetMember<P(!new)>(fields: seq<Field<P>>, key: Key)
    requires Functional(fields)
    ensures forall v :: Get(fields, key) == Some(v) <==> Field(key, v) in fields
  {
    if fields != [] {
      assert fields == [fields[0]] + fields[1..];
      GetMember(fields[1..], key);
    }
  }

  lemma {:induction false} StableFieldsMembers<P(!new)>(fields: seq<Field<P>>)
    ensures forall f :: f in StableFields(fields)
              ==> exists g :: g in fields && !g.value.Undefined? && f == Field(g.key, Stable(g.value))
    ensures forall g :: g in fields && !g.value.Undefined? ==> Field(g.key, Stable(g.value)) in StableFields(fields)
  {
    if fields != [] {
      StableFieldsMembers(fields[1..]);
      assert fields == [fields[0]] + fields[1..];
    }
  }

  lemma StableFunctional<P(!new)>(fields: seq<Field<P>>)
    requires Functional(fields)
    ensures Functional(StableFields(fields))
  {
    StableFieldsMembers(fields);
  }

  /** Sorting the keys does not change what a key holds. */
  lemma GetSorted<P(!new)>(fields: seq<Field<P>>, key: Key)
    requires Functional(fields)
    ensures Get(Sort(KeyOrder(), fields), key) == Get(fields, key)
  {
    SortMembers(KeyOrder(), fields);
    GetMember(fields, key);
    GetMember(Sort(KeyOrder(), fields), key);
    var sorted := Get(Sort(KeyOrder(), fields), key);
    assert sorted.Some? ==> Field(key, sorted.value) in fields;
    assert Get(fields, key).Some? ==> Field(key, Get(fields, key).value) in Sort(KeyOrder(), fields);
  }

  function StableMember<P>(v: Option<Value<P>>): Option<Value<P>> {
    match v
    case None => None
    case Some(w) => if w.Undefined? then None else Some(Stable(w))
  }

  lemma GetCons<P(!new)>(f: Field<P>, rest: seq<Field<P>>, key: Key)
    ensures Get([f] + rest, key) == if f.key == key then Some(f.value) else Get(rest, key)
  {
    assert ([f] + rest)[1..] == rest;
  }

  lemma {:induction false} GetStableFields<P(!new)>(fields: seq<Field<P>>, key: Key)
    requires Functional(fields)
    ensures Get(StableFields(fields), key) == StableMember(Get(fields, key))
  {
    if fields != [] {
      var f, rest := fields[0], fields[1..];
      assert fields == [f] + rest;
      GetStableFields(rest, key);
      if f.value.Undefined? {
        assert StableFields(fields) == StableFields(rest);
        if f.key == key && Get(rest, key).Some? {
          var v := Get(rest, key).value;
          GetMember(rest, key);
          assert Field(key, v) in rest && f in fields;
          assert v == f.value;
        }
      } else {
        GetCons(Field(f.key, Stable(f.value)), StableFields(rest), key);
      }
    }
  }

  /** Reading a member of a stable object gives the stable form of the original member. */
  lemma GetStable<P(!new)>(fields: seq<Field<P>>, key: Key)
    requires Functional(fields)
    ensures Get(Stable(Object(fields)).fields, key) == StableMember(Get(fields, key))
  {
    StableFunctional(fields);
    GetSorted(StableFields(fields), key);
    GetStableFields(fields, key);
  }

  lemma KeyOrderSeparates<P(!new)>(fields: seq<Field<P>>)
    requires Functional(fields)
    ensures TotalPreorder(KeyOrder<P>()) && Separates(KeyOrder(), fields)
  {
  }

  /** The order in which members were assigned leaves no trace. */
  lemma MemberOrderIrrelevant<P(!new)>(a: seq<Field<P>>, b: seq<Field<P>>)
    requires Functional(a) && multiset(a) == multiset(b)
    ensures Stable(Object(a)) == Stable(Object(b))
  {
    StableFieldsPermutation(a, b);
    StableFunctional(a);
    KeyOrderSeparates(StableFields(a));
    SortPermutation(KeyOrder(), StableFields(a), StableFields(b));
  }

  function IsDefined<P>(): Field<P> -> bool {
    (f: Field<P>) => !f.value.Undefined?
  }

  function AsStable<P>(): Field<P> -> Field<P> {
    (f: Field<P>) => Field(f.key, Stable(f.value))
  }

  lemma {:induction false} StableFieldsIsMap<P(!new)>(fields: seq<Field<P>>)
    ensures StableFields(fields) == Map(Filter(fields, IsDefined()), AsStable())
  {
    if fields != [] {
      var rest := Filter(fields[1..], IsDefined());
      StableFieldsIsMap(fields[1..]);
      if !fields[0].value.Undefined? {
        assert Filter(fields, IsDefined()) == [fields[0]] + rest;
        MapConcat([fields[0]], rest, AsStable());
        assert Map([fields[0]], AsStable()) == [AsStable()(fields[0])];
      }
    }
  }

  lemma StableFieldsPermutation<P(!new)>(a: seq<Field<P>>, b: seq<Field<P>>)
    requires multiset(a) == multiset(b)
    ensures multiset(StableFields(a)) == multiset(StableFields(b))
  {
    StableFieldsIsMap(a);
    StableFieldsIsMap(b);
    FilterPermutation(a, b, IsDefined());
    MapPermutation(Filter(a, IsDefined()), Filter(b, IsDefined()), AsStable());
  }

  // ----- objects from records

  const KEY_COUNT := 7

  function Keys(): seq<Key> {
    seq(KEY_COUNT, i requires 0 <= i => i)
  }

  function In<P>(members: map<Key, Value<P>>): Key -> bool {
    (k: Key) => k in members
  }

  function MemberOf<P>(members: map<Key, Value<P>>): Key -> Field<P> {
    (k: Key) => Field(k, if k in members then members[k] else Undefined)
  }

  /** The object with these members, assigned in some fixed order. */
  function AsFields<P>(members: map<Key, Value<P>>): seq<Field<P>> {
    Map(Filter(Keys(), In(members)), MemberOf(members))
  }

  lemma MembersAre<P(!new)>(members: map<Key, Value<P>>, key: Key)
    requires key in members && key < KEY_COUNT
    ensures Functional(AsFields(members)) && Get(AsFields(members), key) == Some(members[key])
    ensures Get(Stable(Object(AsFields(members))).fields, key) == StableMember(Some(members[key]))
  {
    var listed := Filter(Keys(), In(members));
    assert Keys()[key] == key && In(members)(key);
    assert key in listed;
    var i :| 0 <= i < |listed| && listed[i] == key;
    assert AsFields(members)[i] == Field(key, members[key]);
    GetMember(AsFields(members), key);
    GetStable(AsFields(members), key);
  }
}
