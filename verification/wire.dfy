/**
 The objects the saver sends back to Breeze: result entities
 (`_getBreezeEntityFromNewDoc`, `_getBreezeEntityFromDto`) and key mappings
 (`_addKeyMappingsEntry`). Each carries a batch-local sequence number under
 `$id` and a type reference under `$type`.
 */
module Wire {
  import opened Js
  import opened Naming

  const SEQ_KEY: string := "$id"
  const TYPE_KEY: string := "$type"
  const ID_KEY: string := "id"
  const ENTITY_TYPE_NAME_KEY: string := "EntityTypeName"
  const TEMP_VALUE_KEY: string := "TempValue"
  const REAL_VALUE_KEY: string := "RealValue"

  /** The wire keys the saver writes are pairwise different. */
  lemma WireKeysDistinct()
    ensures SEQ_KEY != TYPE_KEY && SEQ_KEY != ID_KEY && TYPE_KEY != ID_KEY
    ensures TEMP_VALUE_KEY != REAL_VALUE_KEY
    ensures ENTITY_TYPE_NAME_KEY !in [SEQ_KEY, TYPE_KEY, TEMP_VALUE_KEY, REAL_VALUE_KEY]
    ensures TEMP_VALUE_KEY !in [SEQ_KEY, TYPE_KEY] && REAL_VALUE_KEY !in [SEQ_KEY, TYPE_KEY]
  {
    assert TEMP_VALUE_KEY[0] != REAL_VALUE_KEY[0];
  }

  /** A store-assigned document id; only its string form reaches the wire. */
  datatype ObjectId = ObjectId(raw: nat)

  /**
   What the saver takes from its surroundings: the metadata namespace and the
   store's `ObjectId.toString()`.
   */
  datatype Env = Env(namespace: string, hexOf: ObjectId -> string)

  /**
   A document the store returns from an update or a delete: its `id` and the
   field map its schema's `serialize` method produces.
   */
  datatype Document = Document(id: string, serialized: Object)

  /** The leading fields of a result entity: `$id`, `$type`, `id`. */
  function Header(seqId: nat, typeRef: string, id: string): (h: Object)
    ensures UniqueKeys(h)
    ensures Keys(h) == [SEQ_KEY, TYPE_KEY, ID_KEY]
  {
    var last: Object := [Field(ID_KEY, Str(id))];
    var tail := [Field(TYPE_KEY, Str(typeRef))] + last;
    KeysCons(Field(ID_KEY, Str(id)), []);
    KeysCons(Field(TYPE_KEY, Str(typeRef)), last);
    KeysCons(Field(SEQ_KEY, Num(seqId)), tail);
    var h := [Field(SEQ_KEY, Num(seqId))] + tail;
    assert last[1..] == [] && UniqueKeys(last);
    assert tail[1..] == last && UniqueKeys(tail);
    assert h[1..] == tail;
    h
  }

  /** The sequence number under `$id`, or 0 (never allocated) when there is none. */
  function SeqIdOf(o: Object): int
  {
    match Get(o, SEQ_KEY)
    case Some(Num(n)) => n
    case _ => 0
  }

  /**
   A result entity: the header, then `_.extend` with `fields`. A field of the
   source wins over the header, so a header key the source also carries is
   overwritten.
   */
  function ResultEntity(seqId: nat, typeRef: string, id: string, fields: Object): (e: Object)
    requires UniqueKeys(fields)
    ensures UniqueKeys(e)
  {
    Extend(Header(seqId, typeRef, id), fields)
  }

  /**
   The fields of a result entity: exactly the header keys and the source's
   keys; every source field with its value; and each header field unless the
   source carries a field of the same name.
   */
  lemma ResultEntityFields(seqId: nat, typeRef: string, id: string, fields: Object)
    requires UniqueKeys(fields)
    ensures var e := ResultEntity(seqId, typeRef, id, fields);
            && (forall k :: k in Keys(e) <==> k in [SEQ_KEY, TYPE_KEY, ID_KEY] || k in Keys(fields))
            && (forall k :: k in Keys(fields) ==> Get(e, k) == Get(fields, k))
            && (SEQ_KEY !in Keys(fields) ==> Get(e, SEQ_KEY) == Some(Num(seqId)) && SeqIdOf(e) == seqId)
            && (TYPE_KEY !in Keys(fields) ==> Get(e, TYPE_KEY) == Some(Str(typeRef)))
            && (ID_KEY !in Keys(fields) ==> Get(e, ID_KEY) == Some(Str(id)))
  {
    var h := Header(seqId, typeRef, id);
    HeaderGet(seqId, typeRef, id);
    ExtendGetAll(h, fields);
    ExtendKeys(h, fields);
  }

  /** A result entity's keys start with `$id`, `$type`, `id`, whatever the source adds or overwrites. */
  lemma ResultEntityKeysFirst(seqId: nat, typeRef: string, id: string, fields: Object)
    requires UniqueKeys(fields)
    ensures |Keys(ResultEntity(seqId, typeRef, id, fields))| >= 3
    ensures Keys(ResultEntity(seqId, typeRef, id, fields))[..3] == [SEQ_KEY, TYPE_KEY, ID_KEY]
  {
    ExtendKeysPrefix(Header(seqId, typeRef, id), fields);
  }

  lemma HeaderGet(seqId: nat, typeRef: string, id: string)
    ensures Get(Header(seqId, typeRef, id), SEQ_KEY) == Some(Num(seqId))
    ensures Get(Header(seqId, typeRef, id), TYPE_KEY) == Some(Str(typeRef))
    ensures Get(Header(seqId, typeRef, id), ID_KEY) == Some(Str(id))
  {
    WireKeysDistinct();
    var last: Object := [Field(ID_KEY, Str(id))];
    var tail := [Field(TYPE_KEY, Str(typeRef))] + last;
    assert Header(seqId, typeRef, id) == [Field(SEQ_KEY, Num(seqId))] + tail;
    GetCons(Field(ID_KEY, Str(id)), [], ID_KEY);
    GetCons(Field(TYPE_KEY, Str(typeRef)), last, TYPE_KEY);
    GetCons(Field(TYPE_KEY, Str(typeRef)), last, ID_KEY);
    GetCons(Field(SEQ_KEY, Num(seqId)), tail, SEQ_KEY);
    GetCons(Field(SEQ_KEY, Num(seqId)), tail, TYPE_KEY);
    GetCons(Field(SEQ_KEY, Num(seqId)), tail, ID_KEY);
  }

  /**
   `_getBreezeEntityFromNewDoc`: the entity for a created document. It carries
   the store id as a string and the record's remaining fields.
   */
  function NewDocEntity(env: Env, seqId: nat, entityType: string, doc: ObjectId, info: Object): (e: Object)
    requires UniqueKeys(info)
    ensures UniqueKeys(e)
  {
    ResultEntity(seqId, TypeName(env.namespace, entityType), env.hexOf(doc), info)
  }

  /**
   `_getBreezeEntityFromDto`: the entity for an updated or deleted document. It
   carries the document's `id` and its serialized fields.
   */
  function DtoEntity(env: Env, seqId: nat, entityType: string, dto: Document): (e: Object)
    requires UniqueKeys(dto.serialized)
    ensures UniqueKeys(e)
  {
    ResultEntity(seqId, TypeName(env.namespace, entityType), dto.id, dto.serialized)
  }

  /** `_addKeyMappingsEntry`: pairs the client's temporary id with the store id. */
  function KeyMappingEntry(env: Env, seqId: nat, entityType: string, tempId: Value, doc: ObjectId): (km: Object)
    ensures Keys(km) == [SEQ_KEY, TYPE_KEY, ENTITY_TYPE_NAME_KEY, TEMP_VALUE_KEY, REAL_VALUE_KEY]
  {
    var f5 := Field(REAL_VALUE_KEY, Str(env.hexOf(doc)));
    var t4 := [Field(TEMP_VALUE_KEY, tempId)] + [f5];
    var t3 := [Field(ENTITY_TYPE_NAME_KEY, Str(EntityTypeName(env.namespace, entityType)))] + t4;
    var t2 := [Field(TYPE_KEY, Str(KEY_MAPPING_TYPE))] + t3;
    KeysCons(f5, []);
    KeysCons(t4[0], [f5]);
    KeysCons(t3[0], t4);
    KeysCons(t2[0], t3);
    KeysCons(Field(SEQ_KEY, Num(seqId)), t2);
    [Field(SEQ_KEY, Num(seqId))] + t2
  }

  lemma KeyMappingFields(env: Env, seqId: nat, entityType: string, tempId: Value, doc: ObjectId)
    ensures var km := KeyMappingEntry(env, seqId, entityType, tempId, doc);
            && SeqIdOf(km) == seqId
            && Get(km, TYPE_KEY) == Some(Str(KEY_MAPPING_TYPE))
            && Get(km, ENTITY_TYPE_NAME_KEY) == Some(Str(EntityTypeName(env.namespace, entityType)))
            && Get(km, TEMP_VALUE_KEY) == Some(tempId)
            && Get(km, REAL_VALUE_KEY) == Some(Str(env.hexOf(doc)))
  {
    WireKeysDistinct();
    var f1 := Field(SEQ_KEY, Num(seqId));
    var f2 := Field(TYPE_KEY, Str(KEY_MAPPING_TYPE));
    var f3 := Field(ENTITY_TYPE_NAME_KEY, Str(EntityTypeName(env.namespace, entityType)));
    var f4 := Field(TEMP_VALUE_KEY, tempId);
    var f5 := Field(REAL_VALUE_KEY, Str(env.hexOf(doc)));
    var t4 := [f4] + [f5];
    var t3 := [f3] + t4;
    var t2 := [f2] + t3;
    assert KeyMappingEntry(env, seqId, entityType, tempId, doc) == [f1] + t2;
    GetCons(f5, [], REAL_VALUE_KEY);
    GetCons(f4, [f5], TEMP_VALUE_KEY);
    GetCons(f4, [f5], REAL_VALUE_KEY);
    GetCons(f3, t4, ENTITY_TYPE_NAME_KEY);
    GetCons(f3, t4, TEMP_VALUE_KEY);
    GetCons(f3, t4, REAL_VALUE_KEY);
    GetCons(f2, t3, TYPE_KEY);
    GetCons(f2, t3, ENTITY_TYPE_NAME_KEY);
    GetCons(f2, t3, TEMP_VALUE_KEY);
    GetCons(f2, t3, REAL_VALUE_KEY);
    GetCons(f1, t2, SEQ_KEY);
    GetCons(f1, t2, TYPE_KEY);
    GetCons(f1, t2, ENTITY_TYPE_NAME_KEY);
    GetCons(f1, t2, TEMP_VALUE_KEY);
    GetCons(f1, t2, REAL_VALUE_KEY);
  }

  /**
   A record field named `$id` overrides the allocated sequence number: the
   result entity then carries the record's value instead.
   */
  lemma SeqKeyOverride(seqId: nat, typeRef: string, id: string, fields: Object, v: Value)
    requires UniqueKeys(fields)
    requires Get(fields, SEQ_KEY) == Some(v)
    ensures Get(ResultEntity(seqId, typeRef, id, fields), SEQ_KEY) == Some(v)
  {
    ResultEntityFields(seqId, typeRef, id, fields);
  }
}
