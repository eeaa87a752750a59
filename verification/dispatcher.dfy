/**
 The synchronous front of a save: `saveChanges` walks the bundle's records in
 order and `_processEntity` reads each record's `entityAspect` to choose the
 store call. A record it cannot read, or whose state it does not recognize,
 throws; the promise is then rejected and no poll is scheduled, but the store
 calls of the records before it are already on their way.
 */
module Dispatcher {
  import opened Js
  import opened Naming
  import opened Reshape
  import opened Wire
  import opened Executor
  import opened Batch

  const ENTITY_TYPE_NAME_PROP: string := "entityTypeName"
  const ENTITY_STATE_PROP: string := "entityState"

  /** Why `_processEntity` throws. */
  datatype SaveError =
    | TypeError                       // `entityAspect` or its `entityTypeName` cannot be read as needed
    | UnrecognizedState(state: Value) // the state matches none of the three names

  datatype Classified = Ok(mutation: Mutation) | Fail(error: SaveError)

  /** The `EntityState` enum: the string Breeze sends for each state. */
  function StateName(s: EntityState): string
  {
    match s
    case Added => "Added"
    case Modified => "Modified"
    case Deleted => "Deleted"
  }

  /** The `switch` on `entityState`: strict equality with one of the three names. */
  function ParseState(v: Value): (r: Option<EntityState>)
    ensures r.Some? ==> v == Str(StateName(r.value))
  {
    if v == Str(StateName(Added)) then Some(Added)
    else if v == Str(StateName(Modified)) then Some(Modified)
    else if v == Str(StateName(Deleted)) then Some(Deleted)
    else None
  }

  /** Every state's name is recognized as that state. */
  lemma ParseStateName(s: EntityState)
    ensures ParseState(Str(StateName(s))) == Some(s)
  {
    assert StateName(Added)[0] != StateName(Modified)[0];
    assert StateName(Added)[0] != StateName(Deleted)[0];
    assert StateName(Modified)[0] != StateName(Deleted)[0];
  }

  /** A value is recognized exactly when it is the name of some state. */
  lemma ParseStateExactly(v: Value)
    ensures ParseState(v).Some? <==> v.Str? && v.s in [StateName(Added), StateName(Modified), StateName(Deleted)]
  {
  }

  /**
   `_processEntity` up to the store call: the model name before `:` of
   `entityAspect.entityTypeName`, then the state. Reading a property of a
   missing `entityAspect`, or splitting a `entityTypeName` that is not a
   string, is a `TypeError`, and it comes before the state is looked at.
   */
  function Classify(info: Object): (r: Classified)
    ensures r.Ok? ==> r.mutation.info == info && ':' !in r.mutation.entityType
    ensures r.Ok? <==> var aspect := Lookup(info, ENTITY_ASPECT);
                       && aspect.Obj?
                       && Lookup(aspect.fields, ENTITY_TYPE_NAME_PROP).Str?
                       && ParseState(Lookup(aspect.fields, ENTITY_STATE_PROP)).Some?
    ensures r.Fail? && r.error.UnrecognizedState? ==> ParseState(r.error.state).None?
    ensures var aspect := Lookup(info, ENTITY_ASPECT);
            r.Fail? ==> (r.error == TypeError <==> !aspect.Obj? || !Lookup(aspect.fields, ENTITY_TYPE_NAME_PROP).Str?)
    ensures var aspect := Lookup(info, ENTITY_ASPECT);
            r.Fail? && r.error.UnrecognizedState? ==> aspect.Obj? && r.error.state == Lookup(aspect.fields, ENTITY_STATE_PROP)
  {
    var aspect := Lookup(info, ENTITY_ASPECT);
    if !aspect.Obj? then Fail(TypeError)
    else
      var typeName := Lookup(aspect.fields, ENTITY_TYPE_NAME_PROP);
      if !typeName.Str? then Fail(TypeError)
      else
        var state := Lookup(aspect.fields, ENTITY_STATE_PROP);
        match ParseState(state)
        case Some(s) => Ok(Mutation(s, ModelName(typeName.s), info))
        case None => Fail(UnrecognizedState(state))
  }

  /** The `entityAspect` a Breeze client sends for a type `<t>:#<ns>` in a state. */
  function Aspect(typeName: string, ns: string, s: EntityState): Value
  {
    Obj([Field(ENTITY_TYPE_NAME_PROP, Str(typeName + ":#" + ns)), Field(ENTITY_STATE_PROP, Str(StateName(s)))])
  }

  /**
   A record whose `entityAspect` is an object reading `<t>:#<ns>` as its type
   name and a state's name as its state is classified as that type and state,
   whatever else the aspect and the record hold.
   */
  lemma ClassifyRecord(info: Object, typeName: string, ns: string, s: EntityState)
    requires ':' !in typeName
    requires Lookup(info, ENTITY_ASPECT).Obj?
    requires Lookup(Lookup(info, ENTITY_ASPECT).fields, ENTITY_TYPE_NAME_PROP) == Str(typeName + ":#" + ns)
    requires Lookup(Lookup(info, ENTITY_ASPECT).fields, ENTITY_STATE_PROP) == Str(StateName(s))
    ensures Classify(info) == Ok(Mutation(s, typeName, info))
  {
    ParseStateName(s);
    ModelNameOfBreezeName(typeName, ns);
  }

  /** In particular, a record carrying the two-field aspect a Breeze client builds. */
  lemma ClassifyAspect(info: Object, typeName: string, ns: string, s: EntityState)
    requires ':' !in typeName
    requires Get(info, ENTITY_ASPECT) == Some(Aspect(typeName, ns, s))
    ensures Classify(info) == Ok(Mutation(s, typeName, info))
  {
    var f1 := Field(ENTITY_TYPE_NAME_PROP, Str(typeName + ":#" + ns));
    var f2 := Field(ENTITY_STATE_PROP, Str(StateName(s)));
    assert ENTITY_TYPE_NAME_PROP[6] != ENTITY_STATE_PROP[6];
    assert Aspect(typeName, ns, s).fields == [f1] + [f2];
    GetCons(f1, [f2], ENTITY_TYPE_NAME_PROP);
    GetCons(f1, [f2], ENTITY_STATE_PROP);
    GetCons(f2, [], ENTITY_STATE_PROP);
    ClassifyRecord(info, typeName, ns, s);
  }

  /** A classified record names its state and its model in its `entityAspect`. */
  lemma ClassifiedAspect(info: Object)
    requires Classify(info).Ok?
    ensures var aspect := Lookup(info, ENTITY_ASPECT);
            var m := Classify(info).mutation;
            && Lookup(aspect.fields, ENTITY_STATE_PROP) == Str(StateName(m.state))
            && m.entityType == ModelName(Lookup(aspect.fields, ENTITY_TYPE_NAME_PROP).s)
  {
  }

  /** The outcome of the `forEach`: every record issued, or a throw after a prefix. */
  datatype Dispatched =
    | Fanned(mutations: seq<Mutation>)
    | Aborted(error: SaveError, issued: seq<Mutation>)

  /**
   `saveBundle.entities.forEach(_processEntity)`: records are classified in
   order; the first that fails stops the walk, and every record before it has
   issued its store call.
   */
  function Dispatch(records: seq<Object>): (r: Dispatched)
    ensures r.Fanned? ==> |r.mutations| == |records|
                          && forall i :: 0 <= i < |records| ==> Classify(records[i]) == Ok(r.mutations[i])
    ensures r.Aborted? ==> && |r.issued| < |records|
                           && (forall i :: 0 <= i < |r.issued| ==> Classify(records[i]) == Ok(r.issued[i]))
                           && Classify(records[|r.issued|]) == Fail(r.error)
  {
    if |records| == 0 then Fanned([])
    else
      match Classify(records[0])
      case Fail(e) => Aborted(e, [])
      case Ok(m) =>
        match Dispatch(records[1..])
        case Fanned(ms) => Fanned([m] + ms)
        case Aborted(e, ms) => Aborted(e, [m] + ms)
  }

  /** The walk is aborted exactly when some record fails, and then by the first one. */
  lemma DispatchAborts(records: seq<Object>)
    ensures Dispatch(records).Aborted? <==> exists i :: 0 <= i < |records| && Classify(records[i]).Fail?
    ensures Dispatch(records).Aborted? ==>
              var k := |Dispatch(records).issued|;
              forall i :: 0 <= i < k ==> Classify(records[i]).Ok?
  {
    var d := Dispatch(records);
    if d.Aborted? {
      assert Classify(records[|d.issued|]).Fail?;
    }
  }

  /** The store calls of the issued records, in issue order. */
  function Calls(ms: seq<Mutation>): (cs: seq<StoreCall>)
    ensures |cs| == |ms|
  {
    if |ms| == 0 then [] else [Call(ms[0])] + Calls(ms[1..])
  }

  lemma {:induction false} CallsAt(ms: seq<Mutation>, i: nat)
    requires i < |ms|
    ensures Calls(ms)[i] == Call(ms[i])
  {
    if i != 0 {
      CallsAt(ms[1..], i - 1);
    }
  }

  /**
   The promise `saveChanges` returns, seen after the callbacks of `sched`:
   rejected by a throw during the walk (with the calls already issued),
   resolved with the SaveResult once every record completed, pending otherwise.
   */
  datatype SaveOutcome =
    | Rejected(error: SaveError, issued: seq<StoreCall>)
    | Resolved(result: SaveResult)
    | Pending

  /** The records as well-formed JavaScript objects, and the documents the store returns for them. */
  ghost predicate WellFormedBundle(records: seq<Object>, store: Store)
  {
    forall i :: 0 <= i < |records| ==> UniqueKeys(records[i]) && UniqueKeys(store.returned(i).serialized)
  }

  /** `saveChanges`. */
  function SaveChanges(env: Env, store: Store, records: seq<Object>, sched: seq<nat>): (r: SaveOutcome)
    requires ValidSchedule(sched, |records|)
    requires WellFormedBundle(records, store)
    ensures r.Rejected? <==> exists i :: 0 <= i < |records| && Classify(records[i]).Fail?
    ensures r.Rejected? ==> && |r.issued| < |records|
                            && Classify(records[|r.issued|]) == Fail(r.error)
                            && forall i :: 0 <= i < |r.issued| ==>
                                 Classify(records[i]).Ok? && r.issued[i] == Call(Classify(records[i]).mutation)
    ensures r.Resolved? <==> && (forall i :: 0 <= i < |records| ==> Classify(records[i]).Ok?)
                             && (forall i :: 0 <= i < |records| ==> i in sched)
  {
    var d := Dispatch(records);
    DispatchAborts(records);
    if d.Aborted? then
      var cs := Calls(d.issued);
      assert forall i :: 0 <= i < |d.issued| ==> cs[i] == Call(d.issued[i]) by {
        forall i | 0 <= i < |d.issued| {
          CallsAt(d.issued, i);
        }
      }
      Rejected(d.error, cs)
    else
      var ms := d.mutations;
      assert WellFormed(ms, store);
      PollResolvesIffAllCompleted(env, store, ms, sched);
      match Poll(Run(env, store, ms, sched, InitState()), |records|)
      case Some(sr) => Resolved(sr)
      case None => Pending
  }

  /** What a resolved save answers: the state of the whole run over the walked records. */
  lemma ResolvedRun(env: Env, store: Store, records: seq<Object>, sched: seq<nat>)
    requires ValidSchedule(sched, |records|)
    requires WellFormedBundle(records, store)
    ensures SaveChanges(env, store, records, sched).Resolved? ==>
              && Dispatch(records).Fanned?
              && WellFormed(Dispatch(records).mutations, store)
              && (forall i :: 0 <= i < |records| ==> i in sched)
              && SaveChanges(env, store, records, sched).result
                 == Run(env, store, Dispatch(records).mutations, sched, InitState()).saveResults
  {
    DispatchAborts(records);
    if Dispatch(records).Fanned? {
      assert WellFormed(Dispatch(records).mutations, store);
    }
  }

  /** An empty bundle resolves at once with an empty SaveResult of `$id` 1. */
  lemma EmptyBundleResolves(env: Env, store: Store)
    ensures SaveChanges(env, store, [], []) == Resolved(SaveResult(1, SAVE_RESULT_TYPE, [], []))
  {
    assert Dispatch([]) == Fanned([]);
    assert Run(env, store, [], [], InitState()) == InitState();
  }

  /** The positions of the records a client sent as created. */
  function CreatedRecords(records: seq<Object>): set<nat>
  {
    set i: nat | i < |records| && Classify(records[i]).Ok? && Classify(records[i]).mutation.state == Added
  }

  /**
   A resolved save answers with the SaveResult of `$id` 1 and its `$type`,
   one entity per record and one key mapping per created record.
   */
  lemma ResolvedShape(env: Env, store: Store, records: seq<Object>, sched: seq<nat>)
    requires ValidSchedule(sched, |records|)
    requires WellFormedBundle(records, store)
    ensures var r := SaveChanges(env, store, records, sched);
            r.Resolved? ==>
              && r.result.seqId == 1 && r.result.typeRef == SAVE_RESULT_TYPE
              && |r.result.entities| == |records|
              && |r.result.keyMappings| == |CreatedRecords(records)|
  {
    ResolvedRun(env, store, records, sched);
    if SaveChanges(env, store, records, sched).Resolved? {
      var ms := Dispatch(records).mutations;
      RunCreates(ms, sched);
      assert AddedPositions(ms) == CreatedRecords(records);
    }
  }

  /**
   In a resolved save where no record and no returned document brings a `$id`
   of its own, every `$id` of the answer is distinct and both lists are in
   increasing `$id` order.
   */
  lemma ResolvedIdsDistinct(env: Env, store: Store, records: seq<Object>, sched: seq<nat>)
    requires ValidSchedule(sched, |records|)
    requires WellFormedBundle(records, store)
    requires forall i :: 0 <= i < |records| ==> SEQ_KEY !in Keys(records[i]) && SEQ_KEY !in Keys(store.returned(i).serialized)
    ensures var r := SaveChanges(env, store, records, sched);
            r.Resolved? ==>
              && Distinct(AllIds(r.result))
              && StrictlyIncreasing(IdsOf(r.result.entities))
              && StrictlyIncreasing(IdsOf(r.result.keyMappings))
  {
    ResolvedRun(env, store, records, sched);
    if SaveChanges(env, store, records, sched).Resolved? {
      var ms := Dispatch(records).mutations;
      assert NoSeqKeys(ms, store);
      BatchIdsDistinct(env, store, ms, sched);
    }
  }
}
