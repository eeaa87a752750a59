/**
 The synchronous half of `_addNewEntity`, `_updateEntity` and `_deleteEntity`:
 what each mutation hands to the store. The store itself is not modelled; the
 calls are values that name the model, the id and the payload.
 */
module Executor {
  import opened Js
  import opened Reshape
  import opened Wire

  /** Breeze's `entityState` values the saver recognizes. */
  datatype EntityState = Added | Modified | Deleted

  /** A record whose type and state were read: the arguments of the chosen mutation. */
  datatype Mutation = Mutation(state: EntityState, entityType: string, info: Object)

  /** The store call a mutation issues. */
  datatype StoreCall =
    | Insert(model: string, payload: Object)
    | UpdateById(model: string, id: Value, payload: Object)
    | RemoveById(model: string, id: Value)

  /** `entityInfo.id`, read before reshaping: the client's temporary key of a new entity. */
  function TempId(info: Object): Value
  {
    Lookup(info, ID_KEY)
  }

  /**
   The record as a create leaves it: `entityAspect` and then `id` deleted. The
   record is aliased, so this is also what the result entity is extended with.
   */
  function CreateData(info: Object): (r: Object)
    ensures ENTITY_ASPECT !in Keys(r) && ID_KEY !in Keys(r)
    ensures forall k :: k != ENTITY_ASPECT && k != ID_KEY ==> Get(r, k) == Get(info, k)
    ensures forall k :: k in Keys(r) ==> k in Keys(info)
    ensures UniqueKeys(info) ==> UniqueKeys(r)
  {
    Remove(EntityFromInfo(info).data, ID_KEY)
  }

  /**
   The document a create saves: the record without `entityAspect` and `id`,
   each embedded document set as a one-element array.
   */
  function CreatePayload(info: Object): Object
  {
    var d := EntityFromInfo(info);
    AttachEmbedded(Remove(d.data, ID_KEY), d.embedded)
  }

  /** The update sent by `findByIdAndUpdate`: the reshaped record with embedded documents wrapped. */
  function UpdatePayload(info: Object): Object
  {
    var d := EntityFromInfo(info);
    AttachEmbedded(d.data, d.embedded)
  }

  /** `entityData.id` in `_deleteEntity`: the key a delete addresses. */
  function TargetId(info: Object): (r: Value)
    ensures r == Lookup(info, ID_KEY)
  {
    Lookup(EntityFromInfo(info).data, ID_KEY)
  }

  /**
   `entityData.id` in `_updateEntity`, read after the embedded documents were
   wrapped in place on the same object.
   */
  function UpdateTargetId(info: Object): Value
  {
    Lookup(UpdatePayload(info), ID_KEY)
  }

  /**
   An update addresses the record's own `id`, except that an `id` holding a
   plain object was itself wrapped as an embedded document first.
   */
  lemma UpdateTargetIdOfRecord(info: Object)
    requires UniqueKeys(info)
    ensures var id := Lookup(info, ID_KEY);
            UpdateTargetId(info) == if IsPlainObject(id) then Arr([id]) else id
  {
    UpdatePayloadGet(info, ID_KEY);
  }

  /** What `_addNewEntity`, `_updateEntity` and `_deleteEntity` ask of the store. */
  function Call(m: Mutation): (c: StoreCall)
    ensures c.model == m.entityType
    ensures c.Insert? <==> m.state == Added
    ensures c.UpdateById? <==> m.state == Modified
    ensures c.RemoveById? <==> m.state == Deleted
    ensures c.Insert? ==> c.payload == CreatePayload(m.info)
    ensures c.UpdateById? ==> c.id == UpdateTargetId(m.info) && c.payload == UpdatePayload(m.info)
    ensures c.RemoveById? ==> c.id == Lookup(m.info, ID_KEY)
  {
    match m.state
    case Added => Insert(m.entityType, CreatePayload(m.info))
    case Modified => UpdateById(m.entityType, UpdateTargetId(m.info), UpdatePayload(m.info))
    case Deleted => RemoveById(m.entityType, TargetId(m.info))
  }

  /** How the store receives a field: an embedded document as a one-element array, anything else as is. */
  function StoredAs(v: Option<Value>): Option<Value>
  {
    if v.Some? && IsPlainObject(v.value) then Some(Arr([v.value])) else v
  }

  /**
   A create saves every domain field of the record, embedded documents
   wrapped, and neither `entityAspect` nor the client's `id`. (An `id` that is
   itself a plain object comes back as an embedded array, because the embedded
   list is taken before `id` is deleted.)
   */
  lemma CreatePayloadGet(info: Object, k: string)
    requires UniqueKeys(info)
    ensures k != ID_KEY ==> (k in Keys(CreatePayload(info)) <==> k in Keys(info) && k != ENTITY_ASPECT)
    ensures k != ENTITY_ASPECT && k != ID_KEY ==> Get(CreatePayload(info), k) == StoredAs(Get(info, k))
    ensures ENTITY_ASPECT !in Keys(CreatePayload(info))
    ensures Get(CreatePayload(info), ID_KEY) == if StoredAs(Get(info, ID_KEY)) != Get(info, ID_KEY) then StoredAs(Get(info, ID_KEY)) else None
  {
    var d := EntityFromInfo(info);
    var es := d.embedded;
    assert es == EmbeddedDocuments(d.data);
    WrapEmbeddedGet(es, k);
    WrapEmbeddedGet(es, ENTITY_ASPECT);
    WrapEmbeddedGet(es, ID_KEY);
    UniqueKeysFromKeys(WrapEmbedded(es), es);
    ExtendGet(Remove(d.data, ID_KEY), WrapEmbedded(es), k);
    ExtendGet(Remove(d.data, ID_KEY), WrapEmbedded(es), ENTITY_ASPECT);
    ExtendGet(Remove(d.data, ID_KEY), WrapEmbedded(es), ID_KEY);
    EmbeddedDocumentsGet(d.data, k);
    EmbeddedDocumentsGet(d.data, ENTITY_ASPECT);
    EmbeddedDocumentsGet(d.data, ID_KEY);
  }

  /**
   An update sends every domain field of the record, including `id`, with
   embedded documents wrapped, and never `entityAspect`.
   */
  lemma UpdatePayloadGet(info: Object, k: string)
    requires UniqueKeys(info)
    ensures k in Keys(UpdatePayload(info)) <==> k in Keys(info) && k != ENTITY_ASPECT
    ensures k != ENTITY_ASPECT ==> Get(UpdatePayload(info), k) == StoredAs(Get(info, k))
  {
    StoreFormGet(EntityFromInfo(info).data, k);
  }
}
