/**
 The saver's per-batch bookkeeping: the state `_initState` resets
 (`itemsProcessed`, `currentId`, `saveResults`), the state change each
 successful store callback makes, and the completion test the poll applies.
 Callbacks fire in any order; a run is a schedule of record positions, each
 standing for the success callback of that record's store call.
 */
module Batch {
  import opened Js
  import opened Naming
  import opened Wire
  import opened Executor
  import opened Reshape

  /** The `saveResults` object: its own `$id` and `$type`, and the two lists Breeze reads. */
  datatype SaveResult = SaveResult(seqId: nat, typeRef: string, entities: seq<Object>, keyMappings: seq<Object>)

  /** The module-level variables of one batch. */
  datatype BatchState = BatchState(itemsProcessed: nat, currentId: nat, saveResults: SaveResult)

  /**
   The store as the callbacks see it, per batch position: the id of the
   document a create saved, and the document an update or a delete returned.
   */
  datatype Store = Store(saved: nat -> ObjectId, returned: nat -> Document)

  /** `_initState`: nothing processed, the SaveResult takes `$id` 1 and the next id is 2. */
  function InitState(): (st: BatchState)
    ensures st.itemsProcessed == 0 && st.currentId == 2
    ensures st.saveResults == SaveResult(1, SAVE_RESULT_TYPE, [], [])
  {
    var currentId := 1;
    BatchState(0, currentId + 1, SaveResult(currentId, SAVE_RESULT_TYPE, [], []))
  }

  /**
   Success of a create (`findById` callback): one result entity taking
   `currentId`, then one key mapping taking the next id, and one more item
   processed; nothing already in the result changes.
   */
  function CompleteCreate(env: Env, st: BatchState, m: Mutation, doc: ObjectId): (st': BatchState)
    requires m.state == Added
    requires UniqueKeys(m.info)
    ensures st'.itemsProcessed == st.itemsProcessed + 1
    ensures st'.currentId == st.currentId + 2
    ensures st'.saveResults.seqId == st.saveResults.seqId && st'.saveResults.typeRef == st.saveResults.typeRef
    ensures |st'.saveResults.entities| == |st.saveResults.entities| + 1
    ensures st'.saveResults.entities[..|st.saveResults.entities|] == st.saveResults.entities
    ensures |st'.saveResults.keyMappings| == |st.saveResults.keyMappings| + 1
    ensures st'.saveResults.keyMappings[..|st.saveResults.keyMappings|] == st.saveResults.keyMappings
  {
    var data := CreateData(m.info);
    var e := NewDocEntity(env, st.currentId, m.entityType, doc, data);
    var km := KeyMappingEntry(env, st.currentId + 1, m.entityType, TempId(m.info), doc);
    var sr := st.saveResults;
    BatchState(st.itemsProcessed + 1, st.currentId + 2,
               sr.(entities := sr.entities + [e], keyMappings := sr.keyMappings + [km]))
  }

  /**
   What a create pushes. The key mapping pairs the record's original `id`
   (`TempValue`) with the store id (`RealValue`) and names the type under the
   namespace. The entity's `id` is that same store id, because the client's
   `id` was deleted from the record before the merge; every other domain field
   of the record is echoed unchanged. The key mapping's `$id` follows the
   entity's.
   */
  lemma CreateResult(env: Env, st: BatchState, m: Mutation, doc: ObjectId)
    requires m.state == Added
    requires UniqueKeys(m.info)
    ensures var st' := CompleteCreate(env, st, m, doc);
            var e := st'.saveResults.entities[|st.saveResults.entities|];
            var km := st'.saveResults.keyMappings[|st.saveResults.keyMappings|];
            && Get(km, TEMP_VALUE_KEY) == Some(TempId(m.info))
            && Get(km, REAL_VALUE_KEY) == Some(Str(env.hexOf(doc)))
            && Get(km, ENTITY_TYPE_NAME_KEY) == Some(Str(EntityTypeName(env.namespace, m.entityType)))
            && Get(km, TYPE_KEY) == Some(Str(KEY_MAPPING_TYPE))
            && SeqIdOf(km) == st.currentId + 1
            && Get(e, ID_KEY) == Get(km, REAL_VALUE_KEY)
            && (SEQ_KEY !in Keys(m.info) ==> SeqIdOf(e) == st.currentId)
            && (TYPE_KEY !in Keys(m.info) ==> Get(e, TYPE_KEY) == Some(Str(TypeName(env.namespace, m.entityType))))
            && (forall k :: k != ENTITY_ASPECT && k != ID_KEY && k in Keys(m.info) ==> Get(e, k) == Get(m.info, k))
  {
    var data := CreateData(m.info);
    var e := ResultEntity(st.currentId, TypeName(env.namespace, m.entityType), env.hexOf(doc), data);
    assert e == NewDocEntity(env, st.currentId, m.entityType, doc, data);
    ResultEntityFields(st.currentId, TypeName(env.namespace, m.entityType), env.hexOf(doc), data);
    KeyMappingFields(env, st.currentId + 1, m.entityType, TempId(m.info), doc);
    var st' := CompleteCreate(env, st, m, doc);
    assert st'.saveResults.entities[|st.saveResults.entities|] == e;
  }

  /**
   Success of an update or a delete (`findByIdAndUpdate` / `findByIdAndRemove`
   callback): one result entity taking `currentId`, no key mapping, and one
   more item processed; nothing already in the result changes.
   */
  function CompleteChange(env: Env, st: BatchState, m: Mutation, dto: Document): (st': BatchState)
    requires m.state != Added
    requires UniqueKeys(dto.serialized)
    ensures st'.itemsProcessed == st.itemsProcessed + 1
    ensures st'.currentId == st.currentId + 1
    ensures st'.saveResults.seqId == st.saveResults.seqId && st'.saveResults.typeRef == st.saveResults.typeRef
    ensures |st'.saveResults.entities| == |st.saveResults.entities| + 1
    ensures st'.saveResults.entities[..|st.saveResults.entities|] == st.saveResults.entities
    ensures st'.saveResults.keyMappings == st.saveResults.keyMappings
  {
    var e := DtoEntity(env, st.currentId, m.entityType, dto);
    var sr := st.saveResults;
    BatchState(st.itemsProcessed + 1, st.currentId + 1, sr.(entities := sr.entities + [e]))
  }

  /**
   What an update or a delete pushes: an entity carrying the returned
   document's `id`, the type reference and every serialized field of the
   document (a serialized field overrides a header field of the same name).
   */
  lemma ChangeResult(env: Env, st: BatchState, m: Mutation, dto: Document)
    requires m.state != Added
    requires UniqueKeys(dto.serialized)
    ensures var e := CompleteChange(env, st, m, dto).saveResults.entities[|st.saveResults.entities|];
            && (SEQ_KEY !in Keys(dto.serialized) ==> SeqIdOf(e) == st.currentId)
            && (TYPE_KEY !in Keys(dto.serialized) ==> Get(e, TYPE_KEY) == Some(Str(TypeName(env.namespace, m.entityType))))
            && (ID_KEY !in Keys(dto.serialized) ==> Get(e, ID_KEY) == Some(Str(dto.id)))
            && (forall k :: k in Keys(dto.serialized) ==> Get(e, k) == Get(dto.serialized, k))
  {
    var e := DtoEntity(env, st.currentId, m.entityType, dto);
    ResultEntityFields(st.currentId, TypeName(env.namespace, m.entityType), dto.id, dto.serialized);
    assert CompleteChange(env, st, m, dto).saveResults.entities[|st.saveResults.entities|] == e;
  }

  /** Every record and every returned document is a well-formed object. */
  ghost predicate WellFormed(ms: seq<Mutation>, store: Store)
  {
    forall i :: 0 <= i < |ms| ==> UniqueKeys(ms[i].info) && UniqueKeys(store.returned(i).serialized)
  }

  /** The success callback of record `i`'s store call. */
  function Step(env: Env, store: Store, ms: seq<Mutation>, st: BatchState, i: nat): (st': BatchState)
    requires i < |ms|
    requires UniqueKeys(ms[i].info) && UniqueKeys(store.returned(i).serialized)
    ensures st'.itemsProcessed == st.itemsProcessed + 1
    ensures st'.saveResults.seqId == st.saveResults.seqId && st'.saveResults.typeRef == st.saveResults.typeRef
    ensures |st'.saveResults.entities| == |st.saveResults.entities| + 1
    ensures st'.saveResults.entities[..|st.saveResults.entities|] == st.saveResults.entities
    ensures |st'.saveResults.keyMappings| == |st.saveResults.keyMappings| + (if ms[i].state == Added then 1 else 0)
    ensures st'.saveResults.keyMappings[..|st.saveResults.keyMappings|] == st.saveResults.keyMappings
    ensures st'.currentId == st.currentId + (if ms[i].state == Added then 2 else 1)
  {
    if ms[i].state == Added then CompleteCreate(env, st, ms[i], store.saved(i))
    else CompleteChange(env, st, ms[i], store.returned(i))
  }

  lemma PrefixTrans<T>(a: seq<T>, b: seq<T>, c: seq<T>)
    requires |a| <= |b| <= |c| && b[..|a|] == a && c[..|b|] == b
    ensures c[..|a|] == a
  {
    assert c[..|a|] == b[..|a|];
  }

  /** Number of schedule entries that complete a create. */
  function CountCreates(ms: seq<Mutation>, sched: seq<nat>): nat
    requires forall j :: 0 <= j < |sched| ==> sched[j] < |ms|
  {
    if |sched| == 0 then 0
    else (if ms[sched[0]].state == Added then 1 else 0) + CountCreates(ms, sched[1..])
  }

  /**
   The callbacks of `sched`, in that order. Every callback processes one item
   and pushes one entity; creates alone push a key mapping. Results are only
   appended, never reordered or dropped.
   */
  function Run(env: Env, store: Store, ms: seq<Mutation>, sched: seq<nat>, st: BatchState): (st': BatchState)
    requires forall j :: 0 <= j < |sched| ==> sched[j] < |ms|
    requires WellFormed(ms, store)
    ensures st'.itemsProcessed == st.itemsProcessed + |sched|
    ensures st'.saveResults.seqId == st.saveResults.seqId && st'.saveResults.typeRef == st.saveResults.typeRef
    ensures |st'.saveResults.entities| == |st.saveResults.entities| + |sched|
    ensures st'.saveResults.entities[..|st.saveResults.entities|] == st.saveResults.entities
    ensures |st'.saveResults.keyMappings| == |st.saveResults.keyMappings| + CountCreates(ms, sched)
    ensures st'.saveResults.keyMappings[..|st.saveResults.keyMappings|] == st.saveResults.keyMappings
    ensures st'.currentId == st.currentId + |sched| + CountCreates(ms, sched)
    decreases |sched|
  {
    if |sched| == 0 then st
    else
      var next := Step(env, store, ms, st, sched[0]);
      var r := Run(env, store, ms, sched[1..], next);
      PrefixTrans(st.saveResults.entities, next.saveResults.entities, r.saveResults.entities);
      PrefixTrans(st.saveResults.keyMappings, next.saveResults.keyMappings, r.saveResults.keyMappings);
      r
  }

  /** `__poll`: resolve with the SaveResult once every record of the batch has completed. */
  function Poll(st: BatchState, numOfItemsToProcess: nat): (r: Option<SaveResult>)
    ensures r.Some? <==> st.itemsProcessed == numOfItemsToProcess
    ensures r.Some? ==> r.value == st.saveResults
  {
    if st.itemsProcessed == numOfItemsToProcess then Some(st.saveResults) else None
  }

  // ---------------------------------------------------------------------
  // Sequence ids
  // ---------------------------------------------------------------------

  /** The `$id`s of a list of wire objects, in list order. */
  function IdsOf(objs: seq<Object>): (ids: seq<int>)
    ensures |ids| == |objs|
  {
    if |objs| == 0 then [] else IdsOf(objs[..|objs| - 1]) + [SeqIdOf(objs[|objs| - 1])]
  }

  ghost predicate StrictlyIncreasing(s: seq<int>)
  {
    forall i, j :: 0 <= i < j < |s| ==> s[i] < s[j]
  }

  /** All entries distinct. */
  ghost predicate Distinct(s: seq<int>)
  {
    forall i, j :: 0 <= i < |s| && 0 <= j < |s| && i != j ==> s[i] != s[j]
  }

  /** Every entry lies in `[lo, hi)`. */
  ghost predicate Within(s: seq<int>, lo: int, hi: int)
  {
    forall x :: x in s ==> lo <= x < hi
  }

  /**
   The `$id` discipline of a batch: entity and key-mapping `$id`s each
   increase, lie in `[2, cur)`, and no id appears in both lists.
   */
  ghost predicate IdsInv(es: seq<int>, ks: seq<int>, cur: int)
  {
    && 2 <= cur
    && StrictlyIncreasing(es)
    && StrictlyIncreasing(ks)
    && Within(es, 2, cur)
    && Within(ks, 2, cur)
    && (forall x :: x in es ==> x !in ks)
  }

  /**
   What the batch state keeps true: the SaveResult holds `$id` 1, the `$id`
   discipline holds below `currentId`, and there is one entity per processed
   item.
   */
  ghost predicate Inv(st: BatchState)
  {
    && st.saveResults.seqId == 1
    && st.itemsProcessed == |st.saveResults.entities|
    && IdsInv(IdsOf(st.saveResults.entities), IdsOf(st.saveResults.keyMappings), st.currentId)
  }

  /** No record and no returned document carries a `$id` of its own that would overwrite the allocated one. */
  ghost predicate NoSeqKeys(ms: seq<Mutation>, store: Store)
  {
    forall i :: 0 <= i < |ms| ==> SEQ_KEY !in Keys(ms[i].info) && SEQ_KEY !in Keys(store.returned(i).serialized)
  }

  lemma InitStateInv()
    ensures Inv(InitState())
  {
  }

  lemma IdsOfAppend(objs: seq<Object>, o: Object)
    ensures IdsOf(objs + [o]) == IdsOf(objs) + [SeqIdOf(o)]
  {
    assert (objs + [o])[..|objs|] == objs;
  }

  lemma PrefixAppend<T>(s': seq<T>, s: seq<T>)
    requires |s'| == |s| + 1 && s'[..|s|] == s
    ensures s' == s + [s'[|s|]]
  {
  }

  /** A create's entity takes `currentId` and its key mapping the id after it. */
  lemma CreateIds(env: Env, st: BatchState, m: Mutation, doc: ObjectId)
    requires m.state == Added && UniqueKeys(m.info)
    requires SEQ_KEY !in Keys(m.info)
    ensures var st' := CompleteCreate(env, st, m, doc);
            && IdsOf(st'.saveResults.entities) == IdsOf(st.saveResults.entities) + [st.currentId]
            && IdsOf(st'.saveResults.keyMappings) == IdsOf(st.saveResults.keyMappings) + [st.currentId + 1]
  {
    var sr, sr' := st.saveResults, CompleteCreate(env, st, m, doc).saveResults;
    CreateResult(env, st, m, doc);
    PrefixAppend(sr'.entities, sr.entities);
    IdsOfAppend(sr.entities, sr'.entities[|sr.entities|]);
    PrefixAppend(sr'.keyMappings, sr.keyMappings);
    IdsOfAppend(sr.keyMappings, sr'.keyMappings[|sr.keyMappings|]);
  }

  /** An update's or a delete's entity takes `currentId`; the key mappings stay as they were. */
  lemma ChangeIds(env: Env, st: BatchState, m: Mutation, dto: Document)
    requires m.state != Added && UniqueKeys(dto.serialized)
    requires SEQ_KEY !in Keys(dto.serialized)
    ensures var st' := CompleteChange(env, st, m, dto);
            && IdsOf(st'.saveResults.entities) == IdsOf(st.saveResults.entities) + [st.currentId]
            && IdsOf(st'.saveResults.keyMappings) == IdsOf(st.saveResults.keyMappings)
  {
    var sr, sr' := st.saveResults, CompleteChange(env, st, m, dto).saveResults;
    ChangeResult(env, st, m, dto);
    PrefixAppend(sr'.entities, sr.entities);
    IdsOfAppend(sr.entities, sr'.entities[|sr.entities|]);
  }

  /**
   The `$id`s one callback hands out: the entity takes `currentId` and a
   create's key mapping the id after it, so each new `$id` exceeds every
   earlier one.
   */
  lemma StepIds(env: Env, store: Store, ms: seq<Mutation>, st: BatchState, i: nat)
    requires i < |ms|
    requires WellFormed(ms, store) && NoSeqKeys(ms, store)
    ensures var st' := Step(env, store, ms, st, i);
            && IdsOf(st'.saveResults.entities) == IdsOf(st.saveResults.entities) + [st.currentId]
            && IdsOf(st'.saveResults.keyMappings)
               == IdsOf(st.saveResults.keyMappings) + (if ms[i].state == Added then [st.currentId + 1] else [])
  {
    if ms[i].state == Added {
      CreateIds(env, st, ms[i], store.saved(i));
    } else {
      ChangeIds(env, st, ms[i], store.returned(i));
      assert IdsOf(st.saveResults.keyMappings) + [] == IdsOf(st.saveResults.keyMappings);
    }
  }

  lemma AppendAbove(s: seq<int>, c: int, lo: int, hi: int)
    requires StrictlyIncreasing(s) && Within(s, lo, hi) && lo <= c && hi <= c
    ensures StrictlyIncreasing(s + [c]) && Within(s + [c], lo, c + 1)
  {
    var t := s + [c];
    forall i, j | 0 <= i < j < |t|
      ensures t[i] < t[j]
    {
      if j == |s| {
        assert t[i] == s[i] && s[i] in s;
      } else {
        assert t[i] == s[i] && t[j] == s[j];
      }
    }
  }

  /** Handing out `cur` to an entity, and `cur + 1` to a key mapping on a create, keeps the `$id` discipline. */
  lemma IdsInvStep(es: seq<int>, ks: seq<int>, cur: int, added: bool)
    requires IdsInv(es, ks, cur)
    ensures IdsInv(es + [cur], if added then ks + [cur + 1] else ks, if added then cur + 2 else cur + 1)
  {
    AppendAbove(es, cur, 2, cur);
    if added {
      AppendAbove(ks, cur + 1, 2, cur);
      assert Within(es + [cur], 2, cur + 2);
      assert Within(ks + [cur + 1], 2, cur + 2);
    } else {
      assert Within(ks, 2, cur + 1);
    }
  }

  /**
   A state that took one more item, an entity `$id` of `currentId` and, on a
   create, a key-mapping `$id` of `currentId + 1` keeps the invariant.
   */
  lemma InvAfterStep(st: BatchState, st': BatchState, added: bool)
    requires Inv(st)
    requires st'.saveResults.seqId == st.saveResults.seqId
    requires st'.itemsProcessed == st.itemsProcessed + 1
    requires |st'.saveResults.entities| == |st.saveResults.entities| + 1
    requires IdsOf(st'.saveResults.entities) == IdsOf(st.saveResults.entities) + [st.currentId]
    requires IdsOf(st'.saveResults.keyMappings)
             == IdsOf(st.saveResults.keyMappings) + (if added then [st.currentId + 1] else [])
    requires st'.currentId == st.currentId + (if added then 2 else 1)
    ensures Inv(st')
  {
    var ks := IdsOf(st.saveResults.keyMappings);
    IdsInvStep(IdsOf(st.saveResults.entities), ks, st.currentId, added);
    if !added {
      assert ks + [] == ks;
    }
  }

  /** One callback keeps the invariant. */
  lemma StepInv(env: Env, store: Store, ms: seq<Mutation>, st: BatchState, i: nat)
    requires i < |ms|
    requires WellFormed(ms, store) && NoSeqKeys(ms, store)
    requires Inv(st)
    ensures Inv(Step(env, store, ms, st, i))
  {
    StepIds(env, store, ms, st, i);
    InvAfterStep(st, Step(env, store, ms, st, i), ms[i].state == Added);
  }

  /** A whole run keeps the invariant. */
  lemma {:induction false} RunInv(env: Env, store: Store, ms: seq<Mutation>, sched: seq<nat>, st: BatchState)
    requires forall j :: 0 <= j < |sched| ==> sched[j] < |ms|
    requires WellFormed(ms, store) && NoSeqKeys(ms, store)
    requires Inv(st)
    ensures Inv(Run(env, store, ms, sched, st))
    decreases |sched|
  {
    if |sched| != 0 {
      StepInv(env, store, ms, st, sched[0]);
      RunInv(env, store, ms, sched[1..], Step(env, store, ms, st, sched[0]));
    }
  }

  /** All `$id`s of a SaveResult: its own, the entities', the key mappings'. */
  function AllIds(sr: SaveResult): seq<int>
  {
    [sr.seqId] + IdsOf(sr.entities) + IdsOf(sr.keyMappings)
  }

  /** Under the invariant no two wire objects of a batch share a `$id`. */
  lemma InvIdsDistinct(st: BatchState)
    requires Inv(st)
    ensures Distinct(AllIds(st.saveResults))
  {
    var es := IdsOf(st.saveResults.entities);
    var ks := IdsOf(st.saveResults.keyMappings);
    var all := AllIds(st.saveResults);
    forall i, j | 0 <= i < |all| && 0 <= j < |all| && i != j
      ensures all[i] != all[j]
    {
      if i > 0 && j > 0 && i <= |es| && j <= |es| {
        assert all[i] == es[i - 1] && all[j] == es[j - 1];
      } else if i > |es| && j > |es| {
        assert all[i] == ks[i - 1 - |es|] && all[j] == ks[j - 1 - |es|];
      } else if i == 0 || j == 0 {
        assert all[0] == 1;
        if i > 0 {
          assert all[i] in es || all[i] in ks;
        } else {
          assert all[j] in es || all[j] in ks;
        }
      } else if i <= |es| {
        assert all[i] in es && all[j] in ks;
      } else {
        assert all[j] in es && all[i] in ks;
      }
    }
  }

  // ---------------------------------------------------------------------
  // Completion
  // ---------------------------------------------------------------------

  /** Each record's callback fires at most once, and only records of the batch complete. */
  ghost predicate ValidSchedule(sched: seq<nat>, n: nat)
  {
    && (forall j :: 0 <= j < |sched| ==> sched[j] < n)
    && (forall j, k :: 0 <= j < k < |sched| ==> sched[j] != sched[k])
  }

  function Elems(s: seq<nat>): (r: set<nat>)
    ensures forall x :: x in r <==> x in s
  {
    set x | x in s
  }

  function Range(n: nat): (r: set<nat>)
    ensures forall i: nat :: i in r <==> i < n
    ensures |r| == n
  {
    if n == 0 then {} else Range(n - 1) + {n - 1}
  }

  lemma {:induction false} DistinctCard(sched: seq<nat>)
    requires forall j, k :: 0 <= j < k < |sched| ==> sched[j] != sched[k]
    ensures |Elems(sched)| == |sched|
  {
    if |sched| != 0 {
      var last := sched[|sched| - 1];
      var init := sched[..|sched| - 1];
      assert sched == init + [last];
      DistinctCard(init);
      assert Elems(sched) == Elems(init) + {last};
    }
  }

  lemma SubsetCard(a: set<nat>, b: set<nat>)
    requires a <= b
    ensures |a| <= |b|
  {
    assert b == a + (b - a);
  }

  /**
   A schedule of distinct batch positions covers the whole batch exactly when
   it is as long as the batch; it is never longer.
   */
  lemma {:induction false} ScheduleCoverage(sched: seq<nat>, n: nat)
    requires ValidSchedule(sched, n)
    ensures |sched| <= n
    ensures |sched| == n <==> forall i :: 0 <= i < n ==> i in sched
  {
    var s := Elems(sched);
    DistinctCard(sched);
    assert s <= Range(n);
    SubsetCard(s, Range(n));
    if |sched| == n {
      forall i | 0 <= i < n
        ensures i in sched
      {
        if i !in sched {
          assert s <= Range(n) - {i};
          SubsetCard(s, Range(n) - {i});
        }
      }
    }
    if forall i :: 0 <= i < n ==> i in sched {
      assert Range(n) <= s;
      SubsetCard(Range(n), s);
    }
  }

  /** The batch positions of a schedule whose record is a create. */
  function CreatesIn(ms: seq<Mutation>, sched: seq<nat>): set<nat>
  {
    set j | j in sched && j < |ms| && ms[j].state == Added
  }

  /** The batch positions of all creates. */
  function AddedPositions(ms: seq<Mutation>): set<nat>
  {
    set j: nat | j < |ms| && ms[j].state == Added
  }

  /** A schedule of distinct positions counts each create it completes once. */
  lemma {:induction false} CountCreatesCard(ms: seq<Mutation>, sched: seq<nat>)
    requires ValidSchedule(sched, |ms|)
    ensures CountCreates(ms, sched) == |CreatesIn(ms, sched)|
  {
    if |sched| != 0 {
      var rest := sched[1..];
      CountCreatesCard(ms, rest);
      assert sched[0] !in rest by {
        forall k | 0 <= k < |rest|
          ensures rest[k] != sched[0]
        {
          assert rest[k] == sched[k + 1];
        }
      }
      assert forall j :: j in sched <==> j == sched[0] || j in rest by {
        assert sched == [sched[0]] + rest;
      }
      if ms[sched[0]].state == Added {
        assert CreatesIn(ms, sched) == {sched[0]} + CreatesIn(ms, rest);
      } else {
        assert CreatesIn(ms, sched) == CreatesIn(ms, rest);
      }
    }
  }

  /** A schedule covering the whole batch completes every create once. */
  lemma RunCreates(ms: seq<Mutation>, sched: seq<nat>)
    requires ValidSchedule(sched, |ms|)
    requires forall i :: 0 <= i < |ms| ==> i in sched
    ensures CountCreates(ms, sched) == |AddedPositions(ms)|
  {
    CountCreatesCard(ms, sched);
    assert CreatesIn(ms, sched) == AddedPositions(ms);
  }

  /**
   Completion counting: after any valid schedule of callbacks on a fresh
   state, `itemsProcessed` never exceeds the batch size, and the poll resolves
   exactly when every record of the batch has completed.
   */
  lemma PollResolvesIffAllCompleted(env: Env, store: Store, ms: seq<Mutation>, sched: seq<nat>)
    requires ValidSchedule(sched, |ms|)
    requires WellFormed(ms, store)
    ensures Run(env, store, ms, sched, InitState()).itemsProcessed <= |ms|
    ensures Poll(Run(env, store, ms, sched, InitState()), |ms|).Some?
        <==> forall i :: 0 <= i < |ms| ==> i in sched
  {
    ScheduleCoverage(sched, |ms|);
  }

  /**
   Over a whole batch, every `$id` (the SaveResult's included) is distinct,
   and entity and key-mapping `$id`s each increase in list order.
   */
  lemma BatchIdsDistinct(env: Env, store: Store, ms: seq<Mutation>, sched: seq<nat>)
    requires forall j :: 0 <= j < |sched| ==> sched[j] < |ms|
    requires WellFormed(ms, store) && NoSeqKeys(ms, store)
    ensures var st := Run(env, store, ms, sched, InitState());
            && Distinct(AllIds(st.saveResults))
            && StrictlyIncreasing(IdsOf(st.saveResults.entities))
            && StrictlyIncreasing(IdsOf(st.saveResults.keyMappings))
  {
    InitStateInv();
    RunInv(env, store, ms, sched, InitState());
    InvIdsDistinct(Run(env, store, ms, sched, InitState()));
  }
}
