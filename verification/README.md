# breeze-mongoose change-set saver, modelled in Dafny

`lib/dbManager.js` takes the change set a Breeze client sends (a bundle of
entity records) and issues the MongoDB store calls for each record. A create
saves a new document and then fetches it back by id; an update or a delete is
one call that returns the document. The saver then answers with a Breeze
`SaveResult`. That answer holds one result entity per record and one
key mapping per created record. It also tracks `$id` sequence numbers and the
count of completed records.

This project models the deterministic bookkeeping in that file as pure
functions over immutable data. Nothing in it is executed. The modules are:

- `Js` (`js.dfy`) covers JavaScript values and objects. An object is an
  ordered list of fields in key enumeration order. The module gives property
  read, `delete`, property assignment and lodash's `_.extend`.
- `Naming` (`naming.dfy`) covers `_getModelName`, `_getTypeName`, the
  KeyMapping `EntityTypeName` and the saver's own `$type` literals.
- `Reshape` (`reshape.dfy`) covers `_getEntityFromInfo`:
  - it deletes `entityAspect`;
  - it lists the fields holding a plain object as embedded documents;
  - it wraps them as the one-element arrays the store keeps.
- `Wire` (`wire.dfy`) covers `_getBreezeEntityFromNewDoc`,
  `_getBreezeEntityFromDto` and `_addKeyMappingsEntry`.
- `Executor` (`executor.dfy`) covers the synchronous half of `_addNewEntity`,
  `_updateEntity` and `_deleteEntity`: the store call each one issues and its
  payload.
- `Batch` (`batch.dfy`) covers the rest of the batch:
  - the module-level variables (`itemsProcessed`, `currentId`,
    `saveResults`) as a `BatchState` record, which `_initState` resets;
  - the success callback of each store call as a transition on that record;
  - a run as a schedule of callbacks in any order;
  - the `__poll` completion test;
  - the `$id` invariants.
- `Dispatcher` (`dispatcher.dfy`) covers `_processEntity`, the `forEach` over
  the bundle and the overall outcome of `saveChanges`:
  - rejected by a throw;
  - resolved with the SaveResult;
  - still pending.

The store is an oracle indexed by batch position. For a created record it
gives the `ObjectId` the store assigned. For an updated or deleted record it
gives the returned document: its `id` and the field map its schema's
`serialize` produces. `NAMESPACE` and `ObjectId.toString()` are parameters of
the environment (`Wire.Env`).

Two behaviours of the code are modelled as written:

- `_.extend` lets a record's field overwrite a header field of the same name,
  so a record or a returned document carrying `$id` or `$type` replaces the
  allocated value (`Wire.SeqKeyOverride`). The `$id` uniqueness results
  therefore assume that no record or returned document carries a `$id` field.
- `_processEntity` throws an `Error` with one fixed message for an
  unrecognized state. The model's `UnrecognizedState` carries the state value
  it read, so the failing value can be named. A `TypeError` is raised when
  the aspect or its type name cannot be read; the model reports it before
  any look at the state, as the code does.
- The record is aliased throughout a create. The entity echoed for a create
  is therefore built from the record after `entityAspect` and `id` were
  deleted, so its `id` is always the store's id.

## Model

| member | source | states |
|---|---|---|
| Naming.ModelName | lib/dbManager.js:194-196 | the model name is a prefix of the Breeze type name, contains no `:`, and is followed by `:` whenever it is shorter than the input |
| Naming.ModelNameUnique | lib/dbManager.js:194-196 | those three properties determine the model name: any prefix with them is the result |
| Naming.ModelNameWithoutSeparator | lib/dbManager.js:194-196 | a type name without `:` comes back whole |
| Naming.ModelNameOfBreezeName | lib/dbManager.js:194-196 | parsing `<Type>:#<ns>` for a `<Type>` without `:` gives back `<Type>` |
| Naming.EntityTypeName | lib/dbManager.js:268 | a key mapping's `EntityTypeName` is the namespace, a `.`, then the model name |
| Naming.TypeName | lib/dbManager.js:279-281 | an entity's `$type` is its `EntityTypeName` followed by `, ` and the namespace |
| Naming.EntityTypeNameIsPrefix | lib/dbManager.js:279-281 | an entity's `$type` starts with its key mapping's `EntityTypeName` |
| Naming.TypeNameInjective | lib/dbManager.js:279-281 | distinct model names get distinct `$type` strings under one namespace |
| Naming.EntityTypeNameInjective | lib/dbManager.js:268 | distinct model names get distinct key-mapping `EntityTypeName`s |
| Js.Remove | lib/dbManager.js:116 | after `delete o[k]` the key is absent, no key is added, every other key reads as before, and keys stay unique |
| Js.RemoveAbsent | lib/dbManager.js:116 | deleting a key the object lacks leaves it unchanged |
| Js.RemoveMembers | lib/dbManager.js:208 | `delete` keeps exactly the fields stored under other keys |
| Js.RemoveAppend | lib/dbManager.js:208 | `delete` keeps the relative order of the remaining fields |
| Js.Assign | lib/dbManager.js:154 | after `o[k] = v`, `k` reads `v`, every other key reads as before, an existing key keeps its place and a new key goes last |
| Js.AssignKeysPrefix | lib/dbManager.js:154 | an assignment leaves the keys already present first, in their order |
| Js.ExtendKeysPrefix | lib/dbManager.js:237 | `_.extend` leaves the target's keys first, in their order |
| Js.Extend | lib/dbManager.js:237 | `_.extend` of objects with unique keys yields unique keys |
| Js.ExtendKeys | lib/dbManager.js:237 | after `_.extend` the keys are exactly the target's and the source's |
| Js.ExtendGet | lib/dbManager.js:237 | after `_.extend` a source key reads the source's value and any other key reads the target's |
| Reshape.RemoveAll | lib/dbManager.js:207-209 | deleting the transport keys removes exactly those keys, keeps every other field and its value, and keeps keys unique |
| Reshape.RemoveAllAppend | lib/dbManager.js:207-209 | deleting the transport keys keeps field order |
| Reshape.EmbeddedDocuments | lib/dbManager.js:212-219 | the embedded list holds exactly the record's fields whose value is a plain object, each with its value unchanged |
| Reshape.EmbeddedDocumentsAppend | lib/dbManager.js:212-219 | the embedded list follows the record's key order |
| Reshape.FieldsPartition | lib/dbManager.js:212-219 | every field is either embedded or scalar, never both, and no field is lost or duplicated (multiset partition) |
| Reshape.EmbeddedDocumentsGet | lib/dbManager.js:212-219 | a key reads from the embedded list exactly when the record's field under it holds a plain object |
| Reshape.EntityFromInfo | lib/dbManager.js:204-222 | reshaping removes `entityAspect` only: every other field is kept with its value, the embedded half lists the plain-object fields, and the two halves partition the data |
| Reshape.EntityFromInfoAppend | lib/dbManager.js:204-222 | reshaping keeps the record's key order in both halves |
| Reshape.WrapEmbeddedGet | lib/dbManager.js:153-155 | wrapping embedded documents keeps their keys and turns each value into a one-element array |
| Reshape.StoreFormGet | lib/dbManager.js:153-155 | attaching a record's own embedded documents adds and loses no key, wraps each plain-object field, and leaves every other field as it was |
| Wire.Header | lib/dbManager.js:231-235 | the header object has exactly the keys `$id`, `$type`, `id`, in that order, each once |
| Wire.ResultEntityKeysFirst | lib/dbManager.js:230-238 | a result entity's keys start with `$id`, `$type`, `id`, whatever the merged object adds or overwrites |
| Wire.HeaderGet | lib/dbManager.js:231-235 | those header keys hold the sequence number, the type reference and the id |
| Wire.ResultEntity | lib/dbManager.js:230-238 | a result entity built from a well-formed object has unique keys |
| Wire.ResultEntityFields | lib/dbManager.js:230-238 | a result entity has the header keys and the source's keys. Every source field keeps its value, and each header field survives unless the source has that key. |
| Wire.NewDocEntity | lib/dbManager.js:230-238 | the entity for a created document has unique keys; its fields are stated by Wire.ResultEntityFields and Batch.CreateResult |
| Wire.DtoEntity | lib/dbManager.js:246-254 | the entity for an updated or deleted document has unique keys; its fields are stated by Wire.ResultEntityFields and Batch.ChangeResult |
| Wire.KeyMappingEntry | lib/dbManager.js:264-272 | a key mapping has exactly the keys `$id`, `$type`, `EntityTypeName`, `TempValue`, `RealValue`, in that order |
| Wire.KeyMappingFields | lib/dbManager.js:264-272 | a key mapping carries its `$id`, the KeyMapping `$type`, `NAMESPACE.type`, the temporary id and the store id's string |
| Wire.SeqKeyOverride | lib/dbManager.js:237 | a source field named `$id` replaces the allocated sequence number |
| Executor.CreateData | lib/dbManager.js:109-116 | the record a create keeps has neither `entityAspect` nor `id`, keeps every other field, and adds no key |
| Executor.TargetId | lib/dbManager.js:173-178 | a delete addresses the record's own `id` |
| Executor.UpdateTargetIdOfRecord | lib/dbManager.js:153-157 | an update addresses the record's own `id`, except that an `id` holding a plain object was first wrapped in place as `[id]` |
| Executor.CreatePayloadGet | lib/dbManager.js:108-123 | a create builds its document from every domain field of the record with embedded documents wrapped, never `entityAspect`, and never the client's `id` unless it was a plain object |
| Executor.Call | lib/dbManager.js:84-185 | an `Added` record issues an insert of the create document, a `Modified` one an update by the wrapped `id` with the update payload, a `Deleted` one a remove by the record's `id`, each on the record's model |
| Executor.UpdatePayloadGet | lib/dbManager.js:147-157 | an update sends every domain field, `id` included, with embedded documents wrapped, and never `entityAspect` |
| Batch.InitState | lib/dbManager.js:68-77 | a reset batch has processed nothing, gives the SaveResult `$id` 1 and its `$type`, has empty lists, and next hands out 2 |
| Batch.CompleteCreate | lib/dbManager.js:130-137 | a create's callback appends one entity and one key mapping, counts one item, uses two ids, and changes nothing already in the result |
| Batch.CreateResult | lib/dbManager.js:135-136 | the pushed key mapping carries `TempValue` = the record's original `id`, `RealValue` = the store id, `NAMESPACE.type` and the next `$id`. The pushed entity's `id` equals `RealValue`, it takes `currentId`, and it echoes every other domain field. |
| Batch.CompleteChange | lib/dbManager.js:157-185 | an update's or a delete's callback appends exactly one entity and no key mapping, counts one item, and uses one id |
| Batch.ChangeResult | lib/dbManager.js:246-254 | the pushed entity carries the returned document's `id`, the type reference, `currentId` and every serialized field |
| Batch.Step | lib/dbManager.js:130-185 | any callback counts one item and appends one entity; only a create appends a key mapping; earlier results are kept |
| Batch.Run | lib/dbManager.js:130-185 | over any order of callbacks, items and entities grow by the number of callbacks, key mappings by the number of creates, and nothing is reordered or dropped |
| Batch.Poll | lib/dbManager.js:54-59 | the poll resolves, with the SaveResult, exactly when the processed count equals the batch size; see Batch.PollResolvesIffAllCompleted for what that means over a schedule |
| Batch.InitStateInv | lib/dbManager.js:68-77 | a reset batch satisfies the `$id` invariant |
| Batch.CreateIds | lib/dbManager.js:135-136 | a create hands `currentId` to its entity and the next id to its key mapping |
| Batch.ChangeIds | lib/dbManager.js:246-254 | an update or a delete hands `currentId` to its entity and no id to a key mapping |
| Batch.StepIds | lib/dbManager.js:130-185 | one callback appends exactly the `$id`s it hands out |
| Batch.InvAfterStep | lib/dbManager.js:232 | handing out `currentId`, and on a create `currentId + 1`, keeps `$id`s increasing, below `currentId` and disjoint between the lists |
| Batch.StepInv | lib/dbManager.js:130-185 | one callback keeps the `$id` invariant |
| Batch.RunInv | lib/dbManager.js:130-185 | any order of callbacks keeps the `$id` invariant |
| Batch.InvIdsDistinct | lib/dbManager.js:72 | under the invariant the SaveResult's, entities' and key mappings' `$id`s are pairwise distinct |
| Batch.BatchIdsDistinct | lib/dbManager.js:230-272 | after any order of callbacks from a reset batch, all `$id`s are distinct and increase along both lists |
| Batch.CountCreatesCard | lib/dbManager.js:136 | a schedule of distinct positions appends one key mapping per create it completes |
| Batch.RunCreates | lib/dbManager.js:136 | a schedule covering the batch appends exactly one key mapping per create of the batch |
| Batch.ScheduleCoverage | lib/dbManager.js:55 | a schedule of distinct batch positions is never longer than the batch, and has its length exactly when it covers every record |
| Batch.PollResolvesIffAllCompleted | lib/dbManager.js:46-59 | the processed count never exceeds the batch size, and the poll resolves exactly when every record has completed |
| Dispatcher.ParseState | lib/dbManager.js:87-99 | a recognized state value is the name of that state |
| Dispatcher.ParseStateName | lib/dbManager.js:87-99 | each state's name is recognized as that state |
| Dispatcher.ParseStateExactly | lib/dbManager.js:87-99 | exactly the strings `Added`, `Modified`, `Deleted` are recognized |
| Dispatcher.Classify | lib/dbManager.js:84-100 | a record is dispatched exactly when its `entityAspect` is an object, its `entityTypeName` a string and its state recognized, and then with a model name free of `:` and the record itself. A failing record gets a `TypeError` exactly when its aspect is not an object or its type name not a string, so that check comes first. Otherwise it gets `UnrecognizedState` carrying the aspect's `entityState`. |
| Dispatcher.ClassifyRecord | lib/dbManager.js:84-100 | a record whose aspect object reads `<Type>:#<ns>` as type name and a state's name as state is dispatched as that type and state, whatever else it holds |
| Dispatcher.ClassifyAspect | lib/dbManager.js:84-100 | a record with the two-field aspect a client builds for `<Type>:#<ns>` and a state is dispatched as that type and state |
| Dispatcher.ClassifiedAspect | lib/dbManager.js:84-100 | a dispatched record's aspect names its state and its model |
| Dispatcher.Dispatch | lib/dbManager.js:48-50 | the walk dispatches every record in order, or stops at the first failing record after dispatching every record before it |
| Dispatcher.DispatchAborts | lib/dbManager.js:48-50 | the walk stops exactly when some record fails, and then at the first one |
| Dispatcher.SaveChanges | lib/dbManager.js:43-62 | the save is rejected exactly when some record fails, with that record's error and the calls of the records before it. It resolves exactly when every record is dispatched and every one has completed. |
| Dispatcher.ResolvedRun | lib/dbManager.js:54-59 | a resolved save answers with the state after the whole schedule, which covers the batch |
| Dispatcher.EmptyBundleResolves | lib/dbManager.js:46-59 | an empty bundle resolves at once with an empty SaveResult of `$id` 1 |
| Dispatcher.ResolvedShape | lib/dbManager.js:43-62 | a resolved SaveResult has `$id` 1 and its `$type`, one entity per record and one key mapping per created record |
| Dispatcher.ResolvedIdsDistinct | lib/dbManager.js:43-62 | in a resolved save without record-supplied `$id`s, all `$id`s are distinct and increase along both lists |

## Left out

- The store and the object-document mapper are not modelled; their results
  are oracle values indexed by batch position. This covers `new EntityModel`,
  `save`, `findById`, `findByIdAndUpdate`, `findByIdAndRemove` and
  `dto.schema.methods.serialize`.
- The `findById` re-fetch after a create's `save` is folded into the store
  oracle: `Store.saved` gives the id of the document the re-fetch returns.
  `Executor.Call` names only the insert.
- `modelContainer`: looking up a model is a foreign call. A lookup that
  throws is not modelled.
- The `Promise`, the `setTimeout` re-poll loop and real interleaving are not
  modelled. Completion is a schedule of success callbacks in any order, and
  the poll is a test on the state a schedule reaches.
- Error callbacks are not modelled. After `errClb` the code keeps running
  into the success path (lib/dbManager.js:126-130, 158-162, 179-183), so no
  behaviour is claimed for them. Only success callbacks appear in a
  schedule.
- Several saves overlapping on the module-level singleton state are not
  modelled: this is interference between concurrent calls. Each save starts
  from `_initState`.
- `metadataGenerator.js` is not part of this model. `NAMESPACE` is a
  parameter.
- `lib/index.js`, which only wires the saver to the metadata generator, is
  not part of this model.
- `ObjectId.toString()` is an opaque function of the environment.
- A bundle element that is not an object, and a store call returning `null`
  instead of a document, are not modelled. Records are objects, and every
  returned document has an `id` and serialized fields.
- JavaScript enumerates integer-like keys first. Fields here are enumerated
  in insertion order.
- Numbers are unbounded integers. Floating point is not modelled.
- Batch.BatchIdsDistinct: holds only when no record and no returned document
  carries its own `$id` field. `_.extend` would otherwise overwrite the
  allocated number, as `Wire.SeqKeyOverride` states.
- Dispatcher.ResolvedIdsDistinct: assumes the same, for the same reason.
- Batch.StepIds: assumes the same, for the same reason.
- Batch.StepInv: assumes the same, for the same reason.
- Batch.RunInv: assumes the same, for the same reason.
- Batch.CreateIds: assumes the record has no `$id` field.
- Batch.ChangeIds: assumes the returned document has no `$id` field.
