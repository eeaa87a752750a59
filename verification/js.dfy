/**
 This module models the JavaScript values the change-set saver handles and the
 few object operations it relies on: property read, `delete`, property
 assignment and lodash's `_.extend`. An object is an ordered list of fields, in
 the order its own keys are enumerated.
 */
module Js {

  datatype Option<+T> = None | Some(value: T)

  /** A JSON-like JavaScript value. Numbers are modelled as integers. */
  datatype Value =
    | Undefined
    | Null
    | Bool(b: bool)
    | Num(n: int)
    | Str(s: string)
    | Arr(items: seq<Value>)
    | Obj(fields: seq<Field>)

  datatype Field = Field(key: string, value: Value)

  /** An object's own enumerable properties, in enumeration order. */
  type Object = seq<Field>

  function Keys(o: Object): seq<string>
  {
    if |o| == 0 then [] else [o[0].key] + Keys(o[1..])
  }

  /** A well-formed JavaScript object never holds the same key twice. */
  predicate UniqueKeys(o: Object)
  {
    |o| == 0 || (o[0].key !in Keys(o[1..]) && UniqueKeys(o[1..]))
  }

  /** Property lookup: the value stored under `k`, if the object has that key. */
  function Get(o: Object, k: string): (r: Option<Value>)
    ensures r.Some? <==> k in Keys(o)
  {
    if |o| == 0 then None
    else if o[0].key == k then Some(o[0].value)
    else Get(o[1..], k)
  }

  lemma GetCons(f: Field, o: Object, k: string)
    ensures Get([f] + o, k) == if f.key == k then Some(f.value) else Get(o, k)
  {
    assert ([f] + o)[1..] == o;
  }

  /** `o[k]` in JavaScript: `undefined` for a missing key. */
  function Lookup(o: Object, k: string): Value
  {
    match Get(o, k)
    case Some(v) => v
    case None => Undefined
  }

  /** In an object with unique keys, the field stored under a key is the one lookup finds. */
  lemma {:induction false} GetUnique(o: Object, f: Field)
    requires UniqueKeys(o)
    requires f in o
    ensures Get(o, f.key) == Some(f.value)
  {
    if o[0] != f {
      assert f in o[1..];
      if o[0].key == f.key {
        KeysOfMember(o[1..], f);
        assert false;
      }
      GetUnique(o[1..], f);
    }
  }

  lemma {:induction false} KeysOfMember(o: Object, f: Field)
    requires f in o
    ensures f.key in Keys(o)
  {
    if o[0] != f {
      assert f in o[1..];
      KeysOfMember(o[1..], f);
    }
  }

  /** `delete o[k]`: the key is gone and nothing else changes. */
  function Remove(o: Object, k: string): (r: Object)
    ensures k !in Keys(r)
    ensures forall k' :: k' in Keys(r) ==> k' in Keys(o)
    ensures forall k' :: k' != k ==> Get(r, k') == Get(o, k')
    ensures UniqueKeys(o) ==> UniqueKeys(r)
  {
    if |o| == 0 then []
    else if o[0].key == k then Remove(o[1..], k)
    else
      var rest := Remove(o[1..], k);
      KeysCons(o[0], rest);
      [o[0]] + rest
  }

  /** Deleting a key the object does not have changes nothing. */
  lemma {:induction false} RemoveAbsent(o: Object, k: string)
    requires k !in Keys(o)
    ensures Remove(o, k) == o
  {
    if |o| != 0 {
      RemoveAbsent(o[1..], k);
      assert o == [o[0]] + o[1..];
    }
  }

  /** `delete o[k]` keeps exactly the fields under other keys. */
  lemma {:induction false} RemoveMembers(o: Object, k: string)
    ensures forall f :: f in Remove(o, k) <==> f in o && f.key != k
  {
    if |o| != 0 {
      RemoveMembers(o[1..], k);
      assert o == [o[0]] + o[1..];
    }
  }

  /** Deleting a key keeps the relative order of the remaining fields. */
  lemma {:induction false} RemoveAppend(a: Object, b: Object, k: string)
    ensures Remove(a + b, k) == Remove(a, k) + Remove(b, k)
  {
    if |a| == 0 {
      assert a + b == b;
    } else {
      assert (a + b)[0] == a[0] && (a + b)[1..] == a[1..] + b;
      RemoveAppend(a[1..], b, k);
    }
  }

  /** `o[k] = v`: an existing key keeps its position, a new key is appended. */
  function Assign(o: Object, k: string, v: Value): (r: Object)
    ensures Get(r, k) == Some(v)
    ensures forall k' :: k' != k ==> Get(r, k') == Get(o, k')
    ensures k in Keys(o) ==> Keys(r) == Keys(o)
    ensures k !in Keys(o) ==> Keys(r) == Keys(o) + [k]
    ensures UniqueKeys(o) ==> UniqueKeys(r)
  {
    if |o| == 0 then [Field(k, v)]
    else if o[0].key == k then
      KeysCons(Field(k, v), o[1..]);
      [Field(k, v)] + o[1..]
    else
      var rest := Assign(o[1..], k, v);
      KeysCons(o[0], rest);
      [o[0]] + rest
  }

  lemma KeysCons(f: Field, o: Object)
    ensures Keys([f] + o) == [f.key] + Keys(o)
  {
    assert ([f] + o)[1..] == o;
  }

  /**
   lodash's `_.extend(target, source)`: every field of `source`, in order, is
   assigned onto `target`.
   */
  function Extend(target: Object, source: Object): (r: Object)
    ensures UniqueKeys(target) ==> UniqueKeys(r)
    decreases |source|
  {
    if |source| == 0 then target
    else Extend(Assign(target, source[0].key, source[0].value), source[1..])
  }

  /** After `_.extend`, the object has the target's keys and the source's keys, and no others. */
  lemma {:induction false} ExtendKeys(target: Object, source: Object)
    ensures forall k :: k in Keys(Extend(target, source)) <==> k in Keys(target) || k in Keys(source)
    decreases |source|
  {
    if |source| != 0 {
      ExtendKeys(Assign(target, source[0].key, source[0].value), source[1..]);
    }
  }

  /** An assignment never moves the keys already present: they stay a prefix. */
  lemma AssignKeysPrefix(o: Object, k: string, v: Value)
    ensures |Keys(o)| <= |Keys(Assign(o, k, v))|
    ensures Keys(Assign(o, k, v))[..|Keys(o)|] == Keys(o)
  {
  }

  /** `_.extend` keeps the target's keys first, in their order. */
  lemma {:induction false} ExtendKeysPrefix(target: Object, source: Object)
    ensures |Keys(target)| <= |Keys(Extend(target, source))|
    ensures Keys(Extend(target, source))[..|Keys(target)|] == Keys(target)
    decreases |source|
  {
    if |source| != 0 {
      var t' := Assign(target, source[0].key, source[0].value);
      AssignKeysPrefix(target, source[0].key, source[0].value);
      ExtendKeysPrefix(t', source[1..]);
      var r := Keys(Extend(target, source));
      assert r[..|Keys(t')|] == Keys(t');
      assert r[..|Keys(target)|] == Keys(t')[..|Keys(target)|];
    }
  }

  /** After `_.extend`, a key of the source reads the source's value; any other key reads the target's. */
  lemma {:induction false} ExtendGet(target: Object, source: Object, k: string)
    requires UniqueKeys(source)
    ensures Get(Extend(target, source), k) == if k in Keys(source) then Get(source, k) else Get(target, k)
    decreases |source|
  {
    if |source| != 0 {
      var t' := Assign(target, source[0].key, source[0].value);
      ExtendGet(t', source[1..], k);
    }
  }

  /** `ExtendGet` for every key at once. */
  lemma ExtendGetAll(target: Object, source: Object)
    requires UniqueKeys(source)
    ensures forall k :: Get(Extend(target, source), k) == if k in Keys(source) then Get(source, k) else Get(target, k)
  {
    forall k {
      ExtendGet(target, source, k);
    }
  }
}
