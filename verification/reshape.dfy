/**
 Reshaping of an incoming Breeze record (`_getEntityFromInfo`): the
 transport-only keys are deleted and every field whose value is a plain object
 is listed as an embedded document. The store keeps an embedded document as a
 one-element array, which `AttachEmbedded` builds.
 */
module Reshape {
  import opened Js

  /** The key under which Breeze sends an entity's type and state. */
  const ENTITY_ASPECT: string := "entityAspect"

  /** The keys that belong to the transport, not to the entity. */
  const BREEZE_RELATED_PROPS: seq<string> := [ENTITY_ASPECT]

  /** lodash's `_.isPlainObject` on the values a JSON record can hold. */
  predicate IsPlainObject(v: Value)
  {
    v.Obj?
  }

  /** `delete o[p]` for every `p` of `props`, in order. */
  function RemoveAll(o: Object, props: seq<string>): (r: Object)
    ensures forall p :: p in props ==> p !in Keys(r)
    ensures forall k :: k !in props ==> Get(r, k) == Get(o, k)
    ensures forall k :: k in Keys(r) ==> k in Keys(o)
    ensures forall f :: f in r <==> f in o && f.key !in props
    ensures UniqueKeys(o) ==> UniqueKeys(r)
    decreases |props|
  {
    if |props| == 0 then o
    else
      RemoveMembers(o, props[0]);
      RemoveAll(Remove(o, props[0]), props[1..])
  }

  /** Deleting keys keeps the relative order of the remaining fields. */
  lemma {:induction false} RemoveAllAppend(a: Object, b: Object, props: seq<string>)
    ensures RemoveAll(a + b, props) == RemoveAll(a, props) + RemoveAll(b, props)
    decreases |props|
  {
    if |props| != 0 {
      RemoveAppend(a, b, props[0]);
      RemoveAllAppend(Remove(a, props[0]), Remove(b, props[0]), props[1..]);
    }
  }

  /** The `{key, value}` entries `_.forOwn` collects: fields holding a plain object. */
  function EmbeddedDocuments(o: Object): (r: seq<Field>)
    ensures forall f :: f in r <==> f in o && IsPlainObject(f.value)
    ensures forall k :: k in Keys(r) ==> k in Keys(o)
    ensures UniqueKeys(o) ==> UniqueKeys(r)
  {
    if |o| == 0 then []
    else if IsPlainObject(o[0].value) then
      var rest := EmbeddedDocuments(o[1..]);
      KeysCons(o[0], rest);
      [o[0]] + rest
    else EmbeddedDocuments(o[1..])
  }

  /** The fields `_.forOwn` passes over: scalars, arrays, `null`. */
  function ScalarFields(o: Object): seq<Field>
  {
    if |o| == 0 then []
    else if IsPlainObject(o[0].value) then ScalarFields(o[1..])
    else [o[0]] + ScalarFields(o[1..])
  }

  /** Embedded documents are listed in the object's own key order. */
  lemma {:induction false} EmbeddedDocumentsAppend(a: Object, b: Object)
    ensures EmbeddedDocuments(a + b) == EmbeddedDocuments(a) + EmbeddedDocuments(b)
  {
    if |a| == 0 {
      assert a + b == b;
    } else {
      assert (a + b)[1..] == a[1..] + b;
      EmbeddedDocumentsAppend(a[1..], b);
    }
  }

  /** Every field is either listed as an embedded document or left as a scalar, never both. */
  lemma {:induction false} FieldsPartition(o: Object)
    ensures multiset(EmbeddedDocuments(o)) + multiset(ScalarFields(o)) == multiset(o)
    ensures forall f :: f in ScalarFields(o) ==> f in o && !IsPlainObject(f.value)
  {
    if |o| != 0 {
      FieldsPartition(o[1..]);
      assert o == [o[0]] + o[1..];
    }
  }

  /** In an object with unique keys, the embedded list answers a key exactly when the field holds a plain object. */
  lemma {:induction false} EmbeddedDocumentsGet(o: Object, k: string)
    requires UniqueKeys(o)
    ensures Get(EmbeddedDocuments(o), k) == if Get(o, k).Some? && IsPlainObject(Get(o, k).value) then Get(o, k) else None
  {
    if |o| != 0 {
      EmbeddedDocumentsGet(o[1..], k);
      if IsPlainObject(o[0].value) {
        KeysCons(o[0], EmbeddedDocuments(o[1..]));
      }
    }
  }

  /** The two halves `_getEntityFromInfo` returns. */
  datatype EntityData = EntityData(data: Object, embedded: seq<Field>)

  /**
   `_getEntityFromInfo`: `data` is the record without its transport keys and
   `embedded` lists its plain-object fields. Reshaping removes only
   `entityAspect`; everything else is kept with its value.
   */
  function EntityFromInfo(info: Object): (r: EntityData)
    ensures ENTITY_ASPECT !in Keys(r.data)
    ensures forall k :: k != ENTITY_ASPECT ==> Get(r.data, k) == Get(info, k)
    ensures forall f :: f in r.data <==> f in info && f.key != ENTITY_ASPECT
    ensures forall f :: f in r.embedded <==> f in info && f.key != ENTITY_ASPECT && IsPlainObject(f.value)
    ensures multiset(r.embedded) + multiset(ScalarFields(r.data)) == multiset(r.data)
    ensures UniqueKeys(info) ==> UniqueKeys(r.data) && UniqueKeys(r.embedded)
  {
    var data := RemoveAll(info, BREEZE_RELATED_PROPS);
    FieldsPartition(data);
    EntityData(data, EmbeddedDocuments(data))
  }

  /** Reshaping keeps the record's key order, in both halves. */
  lemma EntityFromInfoAppend(a: Object, b: Object)
    ensures EntityFromInfo(a + b).data == EntityFromInfo(a).data + EntityFromInfo(b).data
    ensures EntityFromInfo(a + b).embedded == EntityFromInfo(a).embedded + EntityFromInfo(b).embedded
  {
    RemoveAllAppend(a, b, BREEZE_RELATED_PROPS);
    EmbeddedDocumentsAppend(RemoveAll(a, BREEZE_RELATED_PROPS), RemoveAll(b, BREEZE_RELATED_PROPS));
  }

  /** Each embedded document as the one-element array the store keeps. */
  function WrapEmbedded(es: seq<Field>): seq<Field>
  {
    if |es| == 0 then [] else [Field(es[0].key, Arr([es[0].value]))] + WrapEmbedded(es[1..])
  }

  lemma {:induction false} WrapEmbeddedGet(es: seq<Field>, k: string)
    ensures Keys(WrapEmbedded(es)) == Keys(es)
    ensures Get(WrapEmbedded(es), k) == if Get(es, k).Some? then Some(Arr([Get(es, k).value])) else None
  {
    if |es| != 0 {
      WrapEmbeddedGet(es[1..], k);
      KeysCons(Field(es[0].key, Arr([es[0].value])), WrapEmbedded(es[1..]));
    }
  }

  lemma {:induction false} UniqueKeysFromKeys(a: Object, b: Object)
    requires Keys(a) == Keys(b)
    ensures UniqueKeys(a) == UniqueKeys(b)
  {
    if |a| != 0 {
      assert Keys(a)[0] == a[0].key;
      if |b| == 0 {
        assert false;
      }
      assert Keys(a[1..]) == Keys(a)[1..];
      assert Keys(b[1..]) == Keys(b)[1..];
      UniqueKeysFromKeys(a[1..], b[1..]);
    }
  }

  /** `target[e.key] = [e.value]` for every embedded document `e`, in order. */
  function AttachEmbedded(target: Object, es: seq<Field>): Object
  {
    Extend(target, WrapEmbedded(es))
  }

  /**
   Attaching a record's own embedded documents to it turns each plain-object
   field into a one-element array holding it and leaves every other field as
   it was; no key is added or lost.
   */
  lemma StoreFormGet(data: Object, k: string)
    requires UniqueKeys(data)
    ensures k in Keys(AttachEmbedded(data, EmbeddedDocuments(data))) <==> k in Keys(data)
    ensures Get(AttachEmbedded(data, EmbeddedDocuments(data)), k)
         == if Get(data, k).Some? && IsPlainObject(Get(data, k).value) then Some(Arr([Get(data, k).value])) else Get(data, k)
  {
    var es := EmbeddedDocuments(data);
    WrapEmbeddedGet(es, k);
    UniqueKeysFromKeys(WrapEmbedded(es), es);
    ExtendGet(data, WrapEmbedded(es), k);
    EmbeddedDocumentsGet(data, k);
  }
}
