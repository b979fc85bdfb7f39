# Ontology engine in Dafny

A Dafny model of an in-memory "ontology" engine and its order-delivery example application.

The engine stores typed objects under (object type, primary key) and ordered link triples (link type, source key, target key). It is read through object sets that filter, aggregate and traverse links while running governance functions. Edits are staged in an action context and applied later. Around this core sit:

- a function registry and services;
- value, composite, link and tiered indices;
- LRU and multi-level caches with TTL and byte accounting;
- the optimised object-set layer;
- object explorer views and simulations;
- the SDK's argument coercions;
- structured errors, a circuit breaker, retry and fallback;
- alert rules and bounded time series;
- an inspector that scores health;
- the order-delivery schema, its answer-verification graph and the helpers of its tool server.

## How the model is built

- A Python `dict` whose iteration order matters is a `PyDict.Dict` (an insertion-ordered key sequence plus a map).
- A raised exception is the `Err` case of `Wrappers.Result`, tagged with its exception class.
- Objects whose fields the source updates in place are classes, for example:
  - the ontology and its object and link stores;
  - the ACL, the registries and the services;
  - the caches and the indices;
  - the alert manager, the circuit breaker and the error collector.
- Each of those classes is specified by a pure function of its state (`Snapshot()` and the like). Every method's `ensures` ties the new state to a function of the old one, and lemmas prove what the source promises about those functions.
- The bounded breadth-first walks are imperative methods whose loop invariants carry the node and depth bounds: the system graph, the answer-verification graph and the optimised `search_around`.
- Some things are parameters of the model:
  - the clock is an explicit `now`;
  - uuids are a fresh-id function;
  - `pickle` sizes are a `size` argument;
  - governance, derived-property, action and function logic, and simulation runners, are uninterpreted functions.
  - in `Applications.PivotOf` and `Applications.PivotContextOf`, each plan's `search_around` (`around`) is an uninterpreted function of the plan. It is not tied to `ObjectSets.SearchAroundOf`, so the pivot lemmas hold whatever that search returns.
- Locks are treated as no-ops.

## Model

| member | source | states |
|---|---|---|
| Permissions.GrantThenCheck | src/ontology_framework/permissions.py:22-29 | after `grant(p, k)`, `check(p, k)` is true |
| Permissions.GrantIdempotent | src/ontology_framework/permissions.py:22-26 | a second identical grant changes nothing; a duplicate-free list holds the permission exactly once |
| Permissions.GrantOnlyTouchesPrincipal | src/ontology_framework/permissions.py:22-26 | `grant` leaves every other principal's list as it was and only appends to p's |
| Permissions.NeverGrantedIsDenied | src/ontology_framework/permissions.py:28-29 | a principal that no grant names has no list and every check for it is false |
| Permissions.AccessControlList.Grant | src/ontology_framework/permissions.py:22-26 | the table afterwards is the one `Granted` describes |
| LinkStores.ListLinksSpec | src/ontology_framework/core.py:205-208 | `list_links(t)` holds exactly the links of type t, in insertion order (it distributes over appends) |
| LinkStores.DeleteLinkSpec | src/ontology_framework/core.py:213-222 | `delete_link` drops every copy of the exact triple, keeps every other link in relative order, and is a no-op when the triple is absent |
| LinkStores.InMemoryLinkStore.AddLink | src/ontology_framework/core.py:210-211 | the link is appended at the end |
| LinkStores.InMemoryLinkStore.DeleteLink | src/ontology_framework/core.py:213-222 | the list afterwards is the old one without the triple |
| DataSources.UpsertThenFetch | src/ontology_framework/datasources.py:61-109 | after `upsert`, `fetch_object` returns the object; every other (type, key) reads as before; replacing a key keeps the key order |
| DataSources.DeleteThenFetch | src/ontology_framework/datasources.py:61-112 | after `delete` the key is gone and nothing else changed; deleting an absent key or type is a no-op |
| DataSources.UpsertedWf | src/ontology_framework/datasources.py:108-109 | an upsert keeps the store well formed |
| DataSources.DeletedWf | src/ontology_framework/datasources.py:111-112 | a delete keeps the store well formed |
| DataSources.ScanSpec | src/ontology_framework/datasources.py:64-79 | `scan` returns exactly the stored objects of the type that match every filter, in store order; a limit keeps the first `limit` of them |
| DataSources.MaxOf | src/ontology_framework/datasources.py:98-99 | `max` is an element and an upper bound |
| DataSources.MinOf | src/ontology_framework/datasources.py:100-101 | `min` is an element and a lower bound |
| DataSources.AggregateErrors | src/ontology_framework/datasources.py:81-106 | no values give 0.0 whatever the name; an unknown name is a ValueError only on non-empty input; `count` is the number of non-None values; the numeric functions fail exactly on non-numeric values |
| DataSources.AggregateBounds | src/ontology_framework/datasources.py:81-106 | on numbers, min <= avg <= max, and min and max bound every value |
| DataSources.InMemoryDataSource.Upsert | src/ontology_framework/datasources.py:108-109 | the store afterwards is `Upserted(old store, t, o)` and stays well formed |
| DataSources.InMemoryDataSource.Delete | src/ontology_framework/datasources.py:111-112 | the store afterwards is `Deleted(old store, t, pk)` and stays well formed |
| DataSources.ResolveColumn | src/ontology_framework/datasources.py:123-128 | the mapped column for a mapped property, DataSourceError exactly when the property is unmapped |
| DataSources.BuildFilters | src/ontology_framework/datasources.py:160-173 | `("", [])` without filters; DataSourceError iff some key is unmapped; otherwise `" WHERE "` and the clauses joined by `" AND "` in filter order, with the filter values as parameters in the same order |
| Permissions.AccessControlList.constructor | src/ontology_framework/permissions.py:18-20 | a new list grants nothing to anyone |
| LinkStores.InMemoryLinkStore.constructor | src/ontology_framework/core.py:202-203 | a new store holds no links |
| DataSources.InMemoryDataSource.constructor | src/ontology_framework/datasources.py:56-59 | the source wraps the given storage under the given id and is writable |
| OntologyModel.Initial | src/ontology_framework/core.py:705-720 | a new ontology is well formed and knows only the writable default memory data source |
| OntologyModel.WritableIffNotReadOnly | src/ontology_framework/core.py:751-769 | `ensure_object_type_writable` passes exactly when `is_type_read_only` is false, and raises DataSourceError exactly for a registered read-only type |
| OntologyModel.RegisterObjectTypeSpec | src/ontology_framework/core.py:771-776 | registration keeps the state well formed, fills in a backing data source, touches no stored object and no other type, and silently overwrites the same name |
| OntologyModel.AddThenGet | src/ontology_framework/core.py:778-795 | `add_object` fails exactly when the type is not writable (with that error); afterwards `get_object` returns the object and every other key reads as before |
| OntologyModel.DeleteThenGet | src/ontology_framework/core.py:797-803 | `delete_object` is a no-op for an unknown type, fails exactly for a non-writable known type, and otherwise removes only that key |
| OntologyModel.ScanAgreesWithGet | src/ontology_framework/core.py:805-819 | `scan_objects` fails exactly when `get_object` does, and returns only stored objects of the type that match every filter |
| OntologyModel.RegistrationKeepsLinkTypesClosed | src/ontology_framework/core.py:843-866 | `register_link_type` succeeds iff both end types are registered, `register_action_type` iff every target type is; no registration lets a link type name an unregistered object type |
| OntologyModel.FirstArgErrorSpec | src/ontology_framework/core.py:879-906 | the declared inputs are checked in declaration order and the first failing check is the one raised |
| OntologyModel.ExecuteFunctionSpec | src/ontology_framework/core.py:868-908 | ValueError for an unknown function; success iff logic is present and every input passes; the result is the logic applied to the arguments; a missing required input always fails |
| OntologyModel.CreateLinkSpec | src/ontology_framework/core.py:922-966 | PermissionError without `EDIT_LINK_<t>`, ValueError for an unknown link type or a missing source; success appends the triple unless present, and a repeated create is a no-op |
| OntologyModel.TripleListed | src/ontology_framework/core.py:958-964 | the duplicate check over `list_links(t)` finds the triple iff the store holds it |
| OntologyModel.DeleteLinkSpec | src/ontology_framework/core.py:968-980 | fails only on the permission gate; afterwards no copy of the triple remains, every other link stays, nothing else changes; delete then create leaves the triple once at the end |
| OntologyModel.LinkTypesForSpec | src/ontology_framework/core.py:985-992 | `get_link_types_for_object` holds exactly the registered link types with the type at either end |
| Ontologies.Ontology.constructor | src/ontology_framework/core.py:705-720 | the new ontology's state is `Initial()` |
| Ontologies.Ontology.RegisterDatasource | src/ontology_framework/core.py:722-723 | the state afterwards is `RegisterDatasource` of the old one |
| Ontologies.Ontology.RegisterObjectType | src/ontology_framework/core.py:771-776 | the state afterwards is `RegisterObjectType` of the old one |
| Ontologies.Ontology.AddObject | src/ontology_framework/core.py:778-787 | succeeds iff `AddObject` does; a failure changes nothing; success moves to its state |
| Ontologies.Ontology.DeleteObject | src/ontology_framework/core.py:797-803 | succeeds iff `DeleteObject` does; a failure changes nothing; success moves to its state |
| Ontologies.Ontology.RegisterLinkType | src/ontology_framework/core.py:843-855 | succeeds iff `RegisterLinkType` does; a failure changes nothing |
| Ontologies.Ontology.RegisterActionType | src/ontology_framework/core.py:857-862 | succeeds iff `RegisterActionType` does; a failure changes nothing |
| Ontologies.Ontology.RegisterFunction | src/ontology_framework/core.py:864-866 | the state afterwards is `RegisterFunction` of the old one (overwrite) |
| Ontologies.Ontology.CreateLink | src/ontology_framework/core.py:922-966 | succeeds iff `CreateLink` does, with its error and its new state |
| Ontologies.Ontology.DeleteLink | src/ontology_framework/core.py:968-980 | fails only with PermissionError and then changes nothing; success moves to `DeleteLink`'s state |
| ObjectSets.Select | src/ontology_framework/core.py:263-270 | the eager filter keeps exactly the members whose property equals the value |
| ObjectSets.ChainedFiltersIntersect | src/ontology_framework/core.py:254-270 | two chained filters keep exactly the members satisfying both, in either order |
| ObjectSets.AutoFill | src/ontology_framework/core.py:414-438 | `source`/`target` names (any case) take the endpoints; otherwise an object-typed input takes the endpoint of its type and a primitive `link_type` input the link type's name; never an object set |
| ObjectSets.PrepareLinkArgs | src/ontology_framework/core.py:386-412 | every prepared argument is an auto-filled declared input, every required input is filled, and a required input that cannot be filled is a ValueError |
| ObjectSets.ValidationsAreConjunction | src/ontology_framework/core.py:357-372 | the validation functions pass together iff each one passes (dict results by `valid`, others by truthiness) |
| ObjectSets.ResolveTraversalSpec | src/ontology_framework/core.py:275-302 | ValueError for an unknown link type or a set type at neither end; forward exactly when the set's type is the source (forward wins for a self-link), and the result type is the far end |
| ObjectSets.MemberByPk | src/ontology_framework/core.py:308-320 | the member with the link's primary key, None exactly when no member has it |
| ObjectSets.ReverseCollectsMember | src/ontology_framework/core.py:320-324 | as written, a reverse traversal collects `target_obj`, which is the set's own member at the link's target |
| ObjectSets.TargetIsFarEnd | src/ontology_framework/core.py:315-324 | corrected in reverse (see Findings, core.py:320-324): the object a reached link contributes is the stored object at the far end: at the link's target going forward, at its source in reverse |
| ObjectSets.VisitSpec | src/ontology_framework/core.py:308-335 | corrected in reverse (see Findings, core.py:320-324): one link raises exactly when its far end's lookup, a validation function or (for a qualifying link) the scoring function raises; otherwise it contributes exactly when it qualifies, its far end, with the scoring function's own result exactly when the link type scores |
| ObjectSets.RunSpec | src/ontology_framework/core.py:308-344 | corrected in reverse (see Findings, core.py:320-324): over the contributions the loop examined (all of them unless an append reached the limit) none raised, the targets are each key's first object in order, the scores each key's last score, at most `limit` targets, and the loop stops exactly when the targets reach the limit |
| ObjectSets.RunRaises | src/ontology_framework/core.py:308-344 | a raising loop raises the error of a contribution it reached while still running |
| ObjectSets.Settled | src/ontology_framework/core.py:343-344 | once the loop raised or stopped, later links change nothing |
| ObjectSets.FirstsSpec | src/ontology_framework/core.py:337-341 | the first-occurrence list holds no key twice, only objects that occur, and the key of every object that occurs |
| ObjectSets.FirstsGrow | src/ontology_framework/core.py:337-341 | a longer prefix only appends to the first-occurrence list |
| ObjectSets.LastsSpec | src/ontology_framework/core.py:335 | every scored key has a score, and each is that of the last scored contribution to that key |
| ObjectSets.FirstTargetsSpec | src/ontology_framework/core.py:308-341 | corrected in reverse (see Findings, core.py:320-324): the reference answer holds no key twice, only far ends of qualifying links, the key of every qualifying link's far end, and grows by appending as links are added |
| ObjectSets.VisitAt | src/ontology_framework/core.py:308-335 | corrected in reverse (see Findings, core.py:320-324): what a stored link contributes, read back through `VisitSpec` |
| ObjectSets.TraversalTargets | src/ontology_framework/core.py:308-344 | corrected in reverse (see Findings, core.py:320-324): no link the loop examined raised, and the targets are the reference answer over the examined links (all links when the limit was not reached), in the order of each key's first qualifying link, within the limit |
| ObjectSets.TraversalOfSpec | src/ontology_framework/core.py:308-344 | corrected in reverse (see Findings, core.py:320-324): no key twice, at most `limit` targets, only far ends of qualifying links, and the far end of every qualifying link when the limit was not reached |
| ObjectSets.TraversalScores | src/ontology_framework/core.py:335 | corrected in reverse (see Findings, core.py:320-324): with a scoring link type every target has a score, the scoring function's result for the last qualifying link to it that the loop examined; no other key has one; without a scoring function there are none |
| ObjectSets.TraversalOfRaises | src/ontology_framework/core.py:308-344 | the traversal raises only with the error of a raising link, none earlier raising, and succeeds whenever no link raises |
| ObjectSets.Traverse | src/ontology_framework/core.py:304-347 | corrected in reverse (see Findings, core.py:320-324): the loop with its seen-key set computes `TraversalOf`, whose properties the lemmas above state |
| ObjectSets.Collect | src/ontology_framework/core.py:335-344 | one loop body: the score written first, the object appended only for an unseen key, the stop flag set exactly when that append reaches the limit; the seen set stays the keys of the targets |
| ObjectSets.SearchAroundOfSpec | src/ontology_framework/core.py:272-347 | corrected in reverse (see Findings, core.py:320-324): a successful `search_around` has the far end's type; for `limit <= 0` it is empty; otherwise it is the traversal of the members, so no key twice, within the limit, only far ends of qualifying links from the members, all of them below the limit, and scores exactly for the targets when the link type scores |
| ObjectSets.ObjectSet.constructor | src/ontology_framework/core.py:226-240 | the fields as given; filters and limit kept only for a lazy set |
| ObjectSets.ObjectSet.Add | src/ontology_framework/core.py:242-247 | ValueError and no change for an object of another type; otherwise it is appended |
| ObjectSets.ObjectSet.All | src/ontology_framework/core.py:440-448 | a pending lazy set runs its scan once and becomes eager with the result; an eager set returns its members |
| ObjectSets.ObjectSet.Filter | src/ontology_framework/core.py:254-270 | the receiver never changes; a lazy set gives a lazy set with the filter map overwritten at that key; an eager set gives exactly the matching members |
| ObjectSets.ObjectSet.Aggregate | src/ontology_framework/core.py:450-472 | `aggregate` over the non-None values of the (scanned) members |
| ObjectSets.ObjectSet.SearchAround | src/ontology_framework/core.py:272-347 | corrected in reverse (see Findings, core.py:320-324): exactly `SearchAroundOf` over the ontology's stored state and the members as `all()` gives them: ValueError without an ontology, the traversal errors, the far end's type, and targets that are qualifying far ends, within the limit, no key twice and complete below the limit (restated from `SearchAroundOfSpec`); an eager set is left unchanged |
| ObjectSets.BuildObjectSet | src/ontology_framework/core.py:821-841 | ValueError for an unknown type; a lazy set records the filters and limit; an eager set holds the scan's result |
| Actions.ResolvePkSpec | src/ontology_framework/core.py:532-555 | the key is the first non-None of the key field, `id` and `primary_key`, else the fresh `ctx_` id; the stored properties keep every given one and fill the key field and `id` with the key only when absent |
| Actions.StageAllSpec | src/ontology_framework/core.py:526-624 | staging adds one edit and one message per successful call, all of them when none raised, and changes the state only by registering unknown types |
| Actions.StagePreserves | src/ontology_framework/core.py:532-543 | staging never touches the links or any existing table |
| Actions.StageAllStep | src/ontology_framework/core.py:526-624 | call number j either raises, leaving the rest unstaged, or puts its edit and message in front of the rest |
| Actions.ApplyAllConcat | src/ontology_framework/core.py:626-628 | replaying a concatenation replays the first part and, unless it raised, then the second |
| Actions.LinkEditsArePermitted | src/ontology_framework/core.py:598-624 | the permission a staged link edit carries always satisfies the gate of `create_link`/`delete_link` |
| Actions.ModifiedWf | src/ontology_framework/core.py:578-579 | an in-place property write keeps the store well formed |
| Actions.ModifyThenGet | src/ontology_framework/core.py:578-579 | the write is visible at exactly that (type, key), every other object reads as before, and a missing object stays missing |
| Actions.ApplyEditWf | src/ontology_framework/core.py:559-624 | each committed closure keeps the state well formed |
| Actions.ApplyAllWf | src/ontology_framework/core.py:626-628 | a whole replay keeps the state well formed |
| Actions.RunActionSpec | src/ontology_framework/services.py:79-87 | a run that raises before the commit leaves links and stored objects as they were; a successful run reports exactly one change message per staged call |
| Actions.ActionContext.constructor | src/ontology_framework/core.py:504-508 | empty edit and change lists |
| Actions.ActionContext.CreateObjectWithKey | src/ontology_framework/core.py:556-568 | appends one create edit with the given key and properties, and its message |
| Actions.ActionContext.CreateObjectFromProps | src/ontology_framework/core.py:532-568 | registers an unknown type at once, then appends the edit and message `StageCall` describes |
| Actions.ActionContext.ModifyObject | src/ontology_framework/core.py:570-584 | the writability check raises now, changing nothing; otherwise one edit and one message are appended |
| Actions.ActionContext.DeleteObject | src/ontology_framework/core.py:586-596 | appends one delete edit and its message |
| Actions.ActionContext.CreateLink | src/ontology_framework/core.py:598-610 | appends one create-link edit and its message |
| Actions.ActionContext.DeleteLink | src/ontology_framework/core.py:612-624 | appends one delete-link edit and its message |
| Actions.ActionContext.Stage | src/ontology_framework/core.py:526-624 | one logic call: the error and no change, or the new state, edit and message of `StageCall` |
| Actions.ActionContext.StageCalls | src/ontology_framework/core.py:526-624 | the calls of a run staged in order, exactly as `StageAll` describes |
| Actions.ActionContext.Run | src/ontology_framework/services.py:79-87 | a run on a fresh context ends in the state and result of `RunAction` |
| Actions.ActionContext.Replay | src/ontology_framework/core.py:626-628 | one closure replayed: its error with no change, or the state `ApplyEdit` gives |
| Actions.ActionContext.ApplyChanges | src/ontology_framework/core.py:626-628 | the closures run in staging order and stop at the first that raises, without rollback (`ApplyAll`) |
| FunctionRegistries.MapPythonType | src/ontology_framework/functions.py:16-25 | str, int and bool map to STRING, INTEGER and BOOLEAN; every other type maps to STRING |
| FunctionRegistries.AddInputsSpec | src/ontology_framework/functions.py:45-47 | every declared input becomes a required argument of its declared type, appended in declaration order; earlier inputs are kept |
| FunctionRegistries.DeclaredSpec | src/ontology_framework/functions.py:38-47 | the recorded function carries the given logic, the display name (the api name by default), the description and the inputs |
| FunctionRegistries.Build | src/ontology_framework/functions.py:33-51 | the decorator's loop builds exactly `Declared` |
| FunctionRegistries.RegisterEachSpec | src/ontology_framework/functions.py:55-57 | with distinct names every function ends up registered under its name, other functions stay, and nothing else changes |
| FunctionRegistries.RegisterEachFrame | src/ontology_framework/core.py:864-866 | registering functions changes only the function registry |
| FunctionRegistries.RegisterAllSpec | src/ontology_framework/functions.py:55-57 | after `register_all_to_ontology` every pending function is registered under its name |
| FunctionRegistries.FunctionRegistry.constructor | src/ontology_framework/functions.py:29-30 | no pending function |
| FunctionRegistries.FunctionRegistry.Register | src/ontology_framework/functions.py:32-53 | the pending map afterwards holds the built function under its name, replacing an earlier one in place |
| FunctionRegistries.FunctionRegistry.RegisterAllToOntology | src/ontology_framework/functions.py:55-57 | the ontology afterwards is `RegisterEach` of the pending functions in registry order |
| FunctionRegistries.FunctionRegistry.Clear | src/ontology_framework/functions.py:59-61 | the pending map is empty |
| FunctionRegistries.FunctionRegistry.GetPendingFunctions | src/ontology_framework/functions.py:63-65 | a copy of the pending map |
| FunctionRegistries.FunctionRegistry.RemoveFunction | src/ontology_framework/functions.py:67-76 | returns True iff the name was pending; afterwards it is absent and the rest keep their order |
| Services.IndexSomeStep | src/ontology_framework/services.py:24-29 | indexing one more property appends the object to the bucket of its value for that property |
| Services.IndexInto | src/ontology_framework/services.py:24-29 | the property loop of `index_object` ends in `IndexProps` |
| Services.IndexPropsSpec | src/ontology_framework/services.py:14-29 | each bucket gains the object at its end exactly when the object carries that (property, value) |
| Services.IndexKeepsConsistent | src/ontology_framework/services.py:14-29 | `index_object` keeps every bucket equal to the type's list filtered by (property, value); re-indexing stores the object once more |
| Services.ObjectSetService.constructor | src/ontology_framework/services.py:8-12 | empty store and index, consistent |
| Services.ObjectSetService.IndexObject | src/ontology_framework/services.py:14-29 | the object is appended to its type's list and to one bucket per property; the index stays consistent |
| Services.ObjectSetService.GetBaseObjectSet | src/ontology_framework/services.py:31-39 | PermissionError iff the type has an ACL, a principal is named and it lacks VIEW; otherwise all stored objects of the type |
| Services.ObjectSetService.Search | src/ontology_framework/services.py:41-55 | the stored objects of the type with some property whose text contains the query, ignoring case, in store order |
| Services.SearchIn | src/ontology_framework/services.py:46-54 | the outer loop keeps exactly the hits, in order |
| Services.HasHit | src/ontology_framework/services.py:48-52 | the inner loop finds a match iff some property value matches |
| Services.SearchSpec | src/ontology_framework/services.py:41-55 | a search keeps exactly the hits; the empty query matches every object with at least one property |
| Services.AdmitOrder | src/ontology_framework/services.py:62-75 | unknown action gives ValueError first, then a missing EDIT grant gives PermissionError, then a missing required parameter gives ValueError |
| Services.ExecuteSpec | src/ontology_framework/services.py:62-87 | a failed check runs no logic and changes nothing; an action without logic commits nothing and reports no change |
| Services.ActionService.constructor | src/ontology_framework/services.py:58-60 | an empty log |
| Services.ActionService.Check | src/ontology_framework/services.py:62-75 | the checks at the head of `execute_action`, as `Admit` orders them |
| Services.ActionService.ExecuteAction | src/ontology_framework/services.py:62-98 | the state afterwards is that of `Execute`; exactly one log entry (parameters and change list) is appended on success and none on failure |
| Indexing.Put | src/ontology_framework/performance/indexing.py:87-88 | `_index[key].add(pk)`: that bucket gains the key, every other bucket is unchanged, and no bucket is left empty |
| Indexing.Discard | src/ontology_framework/performance/indexing.py:98-100 | `discard` then `del` once empty: that bucket loses the key, others are unchanged, no bucket is left empty |
| Indexing.DiscardPut | src/ontology_framework/performance/indexing.py:80-100 | discarding a key just put into a bucket that did not hold it restores the buckets |
| Indexing.CountPairs | src/ontology_framework/performance/indexing.py:116-119 | the loop behind `size()` counts exactly the (value, key) pairs held |
| Indexing.InPairs | src/ontology_framework/performance/indexing.py:116-119 | a pair is counted exactly when its key sits in its value's bucket |
| Indexing.PutPairs | src/ontology_framework/performance/indexing.py:87-88 | a put adds exactly one pair |
| Indexing.DiscardPairs | src/ontology_framework/performance/indexing.py:98-100 | a discard removes exactly that pair |
| Indexing.BTreeAdd | src/ontology_framework/performance/indexing.py:80-88 | objects of another type or with a None value are ignored; otherwise the key is put under the value |
| Indexing.BTreeRemove | src/ontology_framework/performance/indexing.py:90-100 | objects of another type or with a None value are ignored; otherwise the key is discarded from its value's bucket |
| Indexing.BTreeAddRemoveSpec | src/ontology_framework/performance/indexing.py:80-105 | after `add`, `query(value)` holds the key and nothing else changed; after `remove` it does not; both keep the buckets well formed |
| Indexing.BTreeRoundTrip | src/ontology_framework/performance/indexing.py:80-100 | removing an object just added (whose key was not yet indexed) restores the index |
| Indexing.BTreeSizeDelta | src/ontology_framework/performance/indexing.py:80-119 | `size()` grows by one when `add` indexes a new key and shrinks by one when `remove` drops a held one, and is otherwise unchanged |
| Indexing.InRange | src/ontology_framework/performance/indexing.py:111 | Python's chained `lo <= v <= hi`: true iff both comparisons hold; TypeError when a comparison it evaluates cannot be made |
| Indexing.RangeQueryOf | src/ontology_framework/performance/indexing.py:107-114 | the loop of `range_query` returns exactly the keys under values between the bounds (or the TypeError) |
| Indexing.BTreeIndex.constructor | src/ontology_framework/performance/indexing.py:74-78 | an empty index for the type and property |
| Indexing.BTreeIndex.Add | src/ontology_framework/performance/indexing.py:80-88 | the index afterwards is `BTreeAdd` of the old one |
| Indexing.BTreeIndex.Remove | src/ontology_framework/performance/indexing.py:90-100 | the index afterwards is `BTreeRemove` of the old one |
| Indexing.BTreeIndex.Query | src/ontology_framework/performance/indexing.py:102-105 | exactly the keys paired with the value |
| Indexing.BTreeIndex.RangeQuery | src/ontology_framework/performance/indexing.py:107-114 | `range_query` as `RangeOf` specifies |
| Indexing.BTreeIndex.Size | src/ontology_framework/performance/indexing.py:116-119 | the number of (value, key) pairs |
| Indexing.KeyOf | src/ontology_framework/performance/indexing.py:131-139 | the tuple of the object's values in property order, None exactly when one of them is None |
| Indexing.CompositeAdd | src/ontology_framework/performance/indexing.py:141-149 | indexed under its key only when the type matches and every property is set |
| Indexing.CompositeRemove | src/ontology_framework/performance/indexing.py:151-161 | discarded from its key's bucket under the same conditions |
| Indexing.CompositeRoundTripWf | src/ontology_framework/performance/indexing.py:141-161 | add and remove keep the composite index well formed |
| Indexing.CompositeRoundTrip | src/ontology_framework/performance/indexing.py:141-161 | removing an object just added (whose key was not yet indexed) restores the index |
| Indexing.CompositeQuery | src/ontology_framework/performance/indexing.py:163-170 | the empty set unless every indexed property is filtered on |
| Indexing.CompositeAddQuery | src/ontology_framework/performance/indexing.py:141-170 | an object just added is found by a query agreeing with it on every property |
| Indexing.MatchingStep | src/ontology_framework/performance/indexing.py:183-188 | one more key scanned adds its bucket exactly when the prefix matches |
| Indexing.PrefixQuery | src/ontology_framework/performance/indexing.py:182-190 | the scan of `partial_query` returns exactly the keys under index keys starting with the prefix |
| Indexing.FilterOrderPrefix | src/ontology_framework/performance/indexing.py:180 | the prefix as written: one value per filter, in the filters' own order |
| Indexing.PropertyOrderPrefix | src/ontology_framework/performance/indexing.py:177-180 | the prefix in the index's property order, one value per filter |
| Indexing.PrefixCovered | src/ontology_framework/performance/indexing.py:177-179 | accepted filters are exactly the first `len(filters)` properties |
| Indexing.PartialFindsAdded | src/ontology_framework/performance/indexing.py:172-190 | with the prefix laid out in property order, a partial query finds every indexed object agreeing with the filters |
| Indexing.PartialAsWrittenMisses | src/ontology_framework/performance/indexing.py:172-190 | as written, filters given out of property order miss a matching object |
| Indexing.CompositeIndex.constructor | src/ontology_framework/performance/indexing.py:125-129 | an empty composite index |
| Indexing.CompositeIndex.CreateKey | src/ontology_framework/performance/indexing.py:131-139 | the loop of `_create_key` computes `KeyOf` |
| Indexing.CompositeIndex.Add | src/ontology_framework/performance/indexing.py:141-149 | the index afterwards is `CompositeAdd` of the old one |
| Indexing.CompositeIndex.Remove | src/ontology_framework/performance/indexing.py:151-161 | the index afterwards is `CompositeRemove` of the old one |
| Indexing.CompositeIndex.PartialQuery | src/ontology_framework/performance/indexing.py:172-190 | corrected (see Findings): `partial_query` with the prefix in property order |
| Indexing.CompositeIndex.Size | src/ontology_framework/performance/indexing.py:192-195 | the number of (key, primary key) pairs |
| Indexing.Insert | src/ontology_framework/performance/indexing.py:263 | one insertion step of the sort keeps the same names, one more |
| Indexing.Sort | src/ontology_framework/performance/indexing.py:263 | `properties.sort()` keeps exactly the given names |
| Indexing.SortSorted | src/ontology_framework/performance/indexing.py:263 | the sorted list is in Python's string order |
| Indexing.InsertSorted | src/ontology_framework/performance/indexing.py:263 | inserting into a sorted list keeps it sorted |
| Indexing.SortedUnique | src/ontology_framework/performance/indexing.py:263 | two sorted lists with the same names are equal |
| Indexing.SortOrderFree | src/ontology_framework/performance/indexing.py:263-264 | the sorted properties, hence the composite key, do not depend on the order given |
| Indexing.KeyContainsType | src/ontology_framework/performance/indexing.py:232-296 | every index key contains its own type name, so the `obj_type in index_key` test passes for it |
| Indexing.SecondFieldOfKey | src/ontology_framework/performance/indexing.py:360 | `index_key.split('.')[1]` of a property key gives its property when neither name holds a dot |
| Indexing.EmptyManager | src/ontology_framework/performance/indexing.py:201-223 | a new manager is well formed |
| Indexing.CreatePropertySpec | src/ontology_framework/performance/indexing.py:230-257 | idempotent for an existing key; ValueError for a non-btree type; otherwise a new, empty (not back-filled) index under `type.property` |
| Indexing.AddCompositeWf | src/ontology_framework/performance/indexing.py:269-273 | adding a fresh composite under its own key keeps the manager well formed |
| Indexing.CreateCompositeWf | src/ontology_framework/performance/indexing.py:259-285 | `create_composite_index` keeps the manager well formed |
| Indexing.CreateCompositeSpec | src/ontology_framework/performance/indexing.py:259-285 | ValueError iff fewer than two properties; otherwise the key of the sorted properties, registered, and a new index starts empty |
| Indexing.CreateCompositeIdempotent | src/ontology_framework/performance/indexing.py:268-269 | creating the same composite twice changes nothing the second time |
| Indexing.CompositeOrderFree | src/ontology_framework/performance/indexing.py:263-264 | the result does not depend on the order of the properties |
| Indexing.Lookup | src/ontology_framework/performance/indexing.py:343-347 | the stored objects of the present keys, in input order; all of them when all are present, none when none is |
| Indexing.PropertyStepNext | src/ontology_framework/performance/indexing.py:295-298 | one more property index visited: touched exactly when its key contains the type name |
| Indexing.CompositeStepNext | src/ontology_framework/performance/indexing.py:301-304 | one more composite index visited: touched exactly when its key contains the type name |
| Indexing.StepProperties | src/ontology_framework/performance/indexing.py:295-320 | the loop over the property indexes ends in `PropertyStepIn` |
| Indexing.StepComposites | src/ontology_framework/performance/indexing.py:301-326 | the loop over the composite indexes ends in `CompositeStepIn` |
| Indexing.PropertyStepWf | src/ontology_framework/performance/indexing.py:295-298 | the loop keeps every property index well formed |
| Indexing.CompositeStepWf | src/ontology_framework/performance/indexing.py:301-304 | the loop keeps every composite index well formed |
| Indexing.IndexedWf | src/ontology_framework/performance/indexing.py:287-327 | `index_object` and `remove_object` keep the manager well formed |
| Indexing.PropertyTypeTest | src/ontology_framework/performance/indexing.py:295-298 | on property indexes stored under their own keys, the name test changes nothing |
| Indexing.CompositeTypeTest | src/ontology_framework/performance/indexing.py:301-304 | on composite indexes stored under their own keys, the name test changes nothing |
| Indexing.TypeTestHarmless | src/ontology_framework/performance/indexing.py:287-327 | on a well-formed manager, skipping keys that do not contain the type name is the same as offering the object to every index |
| Indexing.IndexThenFind | src/ontology_framework/performance/indexing.py:287-347 | after `index_object` the object is found by its key and sits in every own-type property bucket for its value; after `remove_object` it is not found |
| Indexing.FirstComposite | src/ontology_framework/performance/indexing.py:390-402 | one pass over the composites in creation order returns the first accepted one, None iff none is accepted |
| Indexing.FirstProperty | src/ontology_framework/performance/indexing.py:404-407 | the first filter property, in filter order, with a property index of the type |
| Indexing.FindBestExact | src/ontology_framework/performance/indexing.py:385-409 | an exact composite match wins whenever there is one |
| Indexing.FindBestNone | src/ontology_framework/performance/indexing.py:385-409 | no index is chosen exactly when no composite covers the filter properties and no filter property has a property index |
| Indexing.QueryIndex | src/ontology_framework/performance/indexing.py:357-375 | the lookup on the chosen index, as `QueryVia` describes |
| Indexing.LinkAdded | src/ontology_framework/performance/indexing.py:329-334 | corrected (see Findings): with sets innermost, `index_link` adds the link in both directions and touches only the link's type entry |
| Indexing.LinkRemoved | src/ontology_framework/performance/indexing.py:336-341 | corrected (see Findings): with sets innermost, `remove_link` drops the link in both directions and touches only the link's type entry (leaving it present) |
| Indexing.LinksStaySymmetric | src/ontology_framework/performance/indexing.py:329-341 | corrected (see Findings): adding and removing links keep the source and target maps mirror images |
| Indexing.MirroredPut | src/ontology_framework/performance/indexing.py:333-334 | corrected (see Findings): the two puts of `index_link` keep the maps mirrored |
| Indexing.MirroredDiscard | src/ontology_framework/performance/indexing.py:340-341 | corrected (see Findings): the two discards of `remove_link` keep the maps mirrored |
| Indexing.Related | src/ontology_framework/performance/indexing.py:411-430 | `{}` for an unknown link type, otherwise one entry per requested key |
| Indexing.LinkLookups | src/ontology_framework/performance/indexing.py:329-430 | corrected (see Findings): after `index_link` the forward lookup finds the target and the reverse one the source; after `remove_link` the target is gone; forward and reverse agree |
| Indexing.IndexLinkRaises | src/ontology_framework/performance/indexing.py:329-334 | as written, from the constructor's state every `index_link` raises KeyError and no key is ever indexed, while the corrected `LinkAdded` finds the link |
| Indexing.RemoveLinkRaises | src/ontology_framework/performance/indexing.py:336-341 | as written, from the constructor's state every `remove_link` raises KeyError and leaves the index without keys, while the corrected `LinkRemoved` drops the link in both directions |
| Indexing.AdvancedIndexManager.constructor | src/ontology_framework/performance/indexing.py:201-223 | an empty, well-formed manager |
| Indexing.AdvancedIndexManager.RegisterObjectType | src/ontology_framework/performance/indexing.py:225-228 | the type's primary-key store restarts empty; nothing else changes |
| Indexing.AdvancedIndexManager.CreatePropertyIndex | src/ontology_framework/performance/indexing.py:230-257 | the manager and result of `CreatedProperty` |
| Indexing.AdvancedIndexManager.CreateCompositeIndex | src/ontology_framework/performance/indexing.py:259-285 | the manager and result of `CreatedComposite` |
| Indexing.AdvancedIndexManager.IndexObject | src/ontology_framework/performance/indexing.py:287-306 | the manager afterwards is `IndexedIn` of the old one |
| Indexing.AdvancedIndexManager.RemoveObject | src/ontology_framework/performance/indexing.py:308-327 | the manager afterwards is `RemovedIn` of the old one |
| Indexing.AdvancedIndexManager.IndexLink | src/ontology_framework/performance/indexing.py:329-334 | corrected (see Findings): the link index afterwards is `LinkAdded` of the old one, where as written the call raises KeyError (`IndexLinkRaises`) |
| Indexing.AdvancedIndexManager.RemoveLink | src/ontology_framework/performance/indexing.py:336-341 | corrected (see Findings): the link index afterwards is `LinkRemoved` of the old one, where as written the call raises KeyError (`RemoveLinkRaises`) |
| Indexing.AdvancedIndexManager.QueryWithIndex | src/ontology_framework/performance/indexing.py:349-383 | the keys `QueryWith` describes; the empty set, not a scan, when no index applies |
| Indexing.ExactlyOneTier | src/ontology_framework/performance/indexing.py:507-530 | `index_object` leaves the object in exactly one tier: hot at or above the hot threshold, else warm at or above the warm threshold, else cold |
| Indexing.PromoteToWarmMoves | src/ontology_framework/performance/indexing.py:570-575 | promotion to warm moves the cold copy up and leaves the hot tier alone |
| Indexing.PromoteToHotMoves | src/ontology_framework/performance/indexing.py:577-590 | promotion to hot takes the warm copy if any, else the cold one, and removes it from that tier |
| Indexing.HierarchicalIndex.constructor | src/ontology_framework/performance/indexing.py:493-505 | the thresholds as given, no access counted, three empty tiers |
| Indexing.HierarchicalIndex.IndexObject | src/ontology_framework/performance/indexing.py:507-530 | the tiers afterwards are `Placed` by the current access count |
| Indexing.HierarchicalIndex.RecordAccess | src/ontology_framework/performance/indexing.py:532-546 | the count grows by exactly one and the promotion the new count triggers is applied |
| Indexing.HierarchicalIndex.PromoteToWarm | src/ontology_framework/performance/indexing.py:570-575 | the tiers afterwards are `PromotedToWarm` of the old ones |
| Indexing.HierarchicalIndex.PromoteToHot | src/ontology_framework/performance/indexing.py:577-590 | the tiers afterwards are `PromotedToHot` of the old ones |
| Cache.IsExpired | src/ontology_framework/performance/cache.py:38-42 | an entry without a TTL never expires; otherwise it has expired exactly when strictly more than its TTL has passed since it was created |
| Cache.ExpiryIsFinal | src/ontology_framework/performance/cache.py:38-42 | once an entry has expired it stays expired as time goes on |
| Cache.EffectiveTtl | src/ontology_framework/performance/cache.py:182 | `ttl or default_ttl`: a missing or zero TTL falls back to the cache's default, any other TTL is kept |
| PyDict.MoveToEnd | src/ontology_framework/performance/cache.py:158-188 | `move_to_end` (and `performance.py`'s pop and re-insert) keeps the same entries and makes the key the most recent one, with no other key added or lost |
| Cache.MoveToEndWf | src/ontology_framework/performance/cache.py:158-188 | moving a key to the end keeps the order a permutation of the entries and leaves the byte count unchanged |
| Cache.RemoveMemory | src/ontology_framework/performance/cache.py:196-240 | popping a key lowers the byte count by exactly that entry's size |
| Cache.PutMemory | src/ontology_framework/performance/cache.py:175-189 | storing an entry raises the byte count by its size less the size of any entry it replaces |
| Cache.NewLru | src/ontology_framework/performance/cache.py:131-137 | a new cache is empty, holds no bytes and has fresh statistics |
| Cache.EvictWf | src/ontology_framework/performance/cache.py:237-243 | an eviction keeps the byte counter equal to the stored bytes and drops one entry |
| Cache.MakeRoom | src/ontology_framework/performance/cache.py:232-243 | `_ensure_capacity` keeps the byte counter exact and never adds an entry |
| Cache.EvictHead | src/ontology_framework/performance/cache.py:237-240 | each eviction pops the least recently used key |
| Cache.MakeRoomDropsOldest | src/ontology_framework/performance/cache.py:232-243 | the keys kept are a suffix of the key order: only the least recently used end is evicted |
| Cache.MakeRoomCounts | src/ontology_framework/performance/cache.py:232-243 | the eviction counter grows by exactly the number of entries dropped; no other counter changes |
| Cache.MakeRoomKeeps | src/ontology_framework/performance/cache.py:232-243 | every entry kept is unchanged |
| Cache.MakeRoomStops | src/ontology_framework/performance/cache.py:232-243 | the loop ends only with the cache empty or with room for one more entry of the new size |
| Cache.GetWf | src/ontology_framework/performance/cache.py:139-160 | `get` keeps the byte counter equal to the stored bytes, including when it drops an expired entry |
| Cache.GetOutcome | src/ontology_framework/performance/cache.py:139-160 | an absent or expired key gives None and a miss, and an expired entry is removed; a live key gives its value and a hit, and becomes the most recently used |
| Cache.SetWf | src/ontology_framework/performance/cache.py:162-191 | `set` keeps the byte counter equal to the stored bytes |
| Cache.SetStores | src/ontology_framework/performance/cache.py:162-191 | after `set` the key holds the new entry (the effective TTL, the given size) and is the most recently used |
| Cache.SetBounded | src/ontology_framework/performance/cache.py:162-243 | with `maxsize >= 1` the cache never holds more than `maxsize` entries, and the bytes stay within `maxsize * 1024` unless the new entry is alone |
| Cache.SetEvictsOldest | src/ontology_framework/performance/cache.py:170-243 | setting into a full cache evicts the least recently used entry first, even when the key being set is already cached |
| Cache.SetThenGet | src/ontology_framework/performance/cache.py:139-191 | a value just set is what `get` returns until its entry expires |
| Cache.DeleteSpec | src/ontology_framework/performance/cache.py:193-202 | `delete` answers whether the key was cached, leaves it absent, changes no other entry and counts one delete iff it removed something |
| Cache.EvictAllSpec | src/ontology_framework/performance/cache.py:251-256 | popping a list of keys leaves exactly the other entries, unchanged, and keeps the byte counter exact |
| Cache.CleanupSpec | src/ontology_framework/performance/cache.py:245-256 | `cleanup_expired` removes exactly the expired entries, counts each as an eviction and keeps the byte counter exact |
| Cache.LruClear | src/ontology_framework/performance/cache.py:204-209 | `clear` leaves no entries, no bytes and fresh statistics, keeping the size limit and default TTL |
| Cache.ClearSpec | src/ontology_framework/performance/cache.py:204-209 | after `clear` every key misses |
| Cache.LRUCache.constructor | src/ontology_framework/performance/cache.py:131-137 | a new, empty cache as `NewLru` describes |
| Cache.LRUCache.Get | src/ontology_framework/performance/cache.py:139-160 | the new state and the value returned are those of `LruGet` |
| Cache.LRUCache.Set | src/ontology_framework/performance/cache.py:162-191 | the new state is that of `LruSet` |
| Cache.LRUCache.EnsureCapacity | src/ontology_framework/performance/cache.py:232-243 | the eviction loop ends in the state `MakeRoom` describes |
| Cache.LRUCache.Delete | src/ontology_framework/performance/cache.py:193-202 | the new state and the answer are those of `LruDelete` |
| Cache.LRUCache.Clear | src/ontology_framework/performance/cache.py:204-209 | the new state is that of `LruClear` |
| Cache.LRUCache.CleanupExpired | src/ontology_framework/performance/cache.py:245-256 | the collect-then-pop loops end in the state `LruCleanup` describes |
| Cache.KeepRecent | src/ontology_framework/performance/cache.py:541-542 | `history[-100:]`: at most 100 times, and a short history is kept whole |
| Cache.RecordAccess | src/ontology_framework/performance/cache.py:533-542 | only the key's own history changes: it gains the current time and keeps its most recent 100 times |
| Cache.RecordAccessBounded | src/ontology_framework/performance/cache.py:533-542 | the history ends with the new time, is a suffix of the extended history, holds at most 100 times, and is kept whole while below 100 |
| Cache.MultiGetCounts | src/ontology_framework/performance/cache.py:410-444 | every `get` counts exactly one global hit or one global miss, a hit iff a value came back, and no other global counter changes |
| Cache.MultiGetFound | src/ontology_framework/performance/cache.py:410-444 | a value returned was stored under the key in L1, L2 or L3 |
| Cache.MultiGetPromotesL2 | src/ontology_framework/performance/cache.py:422-428 | an L2 hit is returned and copied into L1 |
| Cache.MultiGetPromotesL3 | src/ontology_framework/performance/cache.py:431-440 | an L3 hit is copied into L2 only; L1 sees nothing but its own miss |
| Cache.MultiGetWf | src/ontology_framework/performance/cache.py:410-444 | `get` keeps both in-memory tiers' byte counters exact and every history at most 100 long |
| Cache.MultiGetBelowWf | src/ontology_framework/performance/cache.py:422-444 | the L2 and L3 part of `get` keeps both in-memory tiers well formed |
| Cache.AccessBounded | src/ontology_framework/performance/cache.py:533-542 | recording an access keeps every key's history at most 100 long |
| Cache.MultiSetTier | src/ontology_framework/performance/cache.py:446-463 | `set` writes the named tier (L2 for an unknown level, or for L3 without a backend) and leaves the other two as they were |
| Cache.MultiDeleteSpec | src/ontology_framework/performance/cache.py:465-476 | `delete` reports whether any tier held the key, and afterwards none does |
| Cache.MultiClearMisses | src/ontology_framework/performance/cache.py:478-489 | after `clear` every key misses in every tier |
| Cache.MultiCleanupSpec | src/ontology_framework/performance/cache.py:528-531 | `cleanup_expired` leaves no expired entry in L1 or L2 and keeps the tiers well formed |
| Cache.MultiLevelCache.constructor | src/ontology_framework/performance/cache.py:383-408 | L1 of `l1_size` entries for 300 s, L2 of `l2_size` entries for 1800 s, the given L3, fresh statistics, no history |
| Cache.MultiLevelCache.Get | src/ontology_framework/performance/cache.py:410-444 | the new state and the value returned are those of `MultiGet` |
| Cache.MultiLevelCache.GetBelowL1 | src/ontology_framework/performance/cache.py:422-444 | after an L1 miss, the new state and the value returned are those of `MultiGetBelow`, the L2 then L3 part of `MultiGet` |
| Cache.MultiLevelCache.CopyIntoL1 | src/ontology_framework/performance/cache.py:422-428 | an L2 hit is set into L1 and counted as an L2 and a global hit; L2 and L3 are untouched |
| Cache.MultiLevelCache.CopyIntoL2 | src/ontology_framework/performance/cache.py:432-440 | an L3 hit is set into L2 and counted as an L3 and a global hit; L1 and L3 are untouched |
| Cache.MultiLevelCache.Set | src/ontology_framework/performance/cache.py:446-463 | the new state is that of `MultiSet` |
| Cache.MultiLevelCache.SetIntoL1 | src/ontology_framework/performance/cache.py:451-453 | a set at level L1 goes into L1 and is counted there; L2 and L3 are untouched |
| Cache.MultiLevelCache.SetIntoL2 | src/ontology_framework/performance/cache.py:454-463 | a set at level L2, or at L3 without an L3 store, goes into L2 and is counted there; L1 and L3 are untouched |
| Cache.MultiLevelCache.Delete | src/ontology_framework/performance/cache.py:465-476 | the new state and the answer are those of `MultiDelete` |
| Cache.MultiLevelCache.Clear | src/ontology_framework/performance/cache.py:478-489 | the new state is that of `MultiClear` |
| Cache.MultiLevelCache.CleanupExpired | src/ontology_framework/performance/cache.py:528-531 | the new state is that of `MultiCleanup` |
| Cache.CacheTtlTripleUnreachable | src/ontology_framework/performance/cache.py:583-600 | as written the TTL is always 60, 300 or 600: a query used 150 times gets 600, never the tripled 900 |
| Cache.CacheTtl | src/ontology_framework/performance/cache.py:583-600 | corrected: 900 s above 100 uses, 600 s above 50, else 300 s; real-time data gets 60 s |
| Cache.CacheTtlMonotone | src/ontology_framework/performance/cache.py:583-600 | the corrected TTL never shrinks as a query is used more often, and agrees with the code up to 100 uses |
| Performance.NewTtlLru | src/ontology_framework/performance.py:33-40 | a new cache has a timestamp for exactly its keys and respects its size bound |
| PyDict.MoveToEndWf | src/ontology_framework/performance.py:74-76 | moving a present key keeps the keys a permutation of the entries, with the same count |
| Performance.DropKeyWf | src/ontology_framework/performance.py:53-57 | deleting a key from both maps keeps them in step and drops one entry |
| Performance.DropAllSpec | src/ontology_framework/performance.py:46-57 | deleting a list of keys removes exactly those keys and keeps every other value and timestamp |
| Performance.DropAllStep | src/ontology_framework/performance.py:53-57 | deleting a list of keys is deleting its first key and then the rest |
| Performance.CleanupSpec | src/ontology_framework/performance.py:46-57 | `_cleanup_expired` removes exactly the entries older than `ttl_seconds` and keeps the others as they were |
| Performance.GetSpec | src/ontology_framework/performance.py:59-78 | `get` counts exactly one hit or one miss; a live key is returned and becomes the most recently used; an absent or expired key gives None and is not kept; stale entries are purged first |
| Performance.PutExistingSpec | src/ontology_framework/performance.py:80-88 | `put` of a cached key replaces its value and timestamp in place: same order, same size, same counters |
| Performance.PutNewSpec | src/ontology_framework/performance.py:80-101 | `put` of a new key never lets the cache exceed `max_size`: with the purged cache full, the oldest key is evicted first and the new key becomes the most recent; a non-positive `max_size` raises StopIteration |
| Performance.InsertSpec | src/ontology_framework/performance.py:100-101 | inserting an absent key appends it with its value and timestamp |
| Performance.PutThenGet | src/ontology_framework/performance.py:59-101 | with `max_size >= 1` a value just put is what `get` returns until its time to live has passed |
| Performance.ClearSpec | src/ontology_framework/performance.py:103-109 | after `clear` every key misses and the counters restart from that one miss |
| Performance.LRUCache.constructor | src/ontology_framework/performance.py:33-40 | an empty cache as `NewTtlLru` describes |
| Performance.LRUCache.CleanupExpired | src/ontology_framework/performance.py:46-57 | the collect-then-delete loops end in the state `Cleanup` describes |
| Performance.LRUCache.Get | src/ontology_framework/performance.py:59-78 | the new state and the value are those of `TtlGet` |
| Performance.LRUCache.Put | src/ontology_framework/performance.py:80-101 | the new state and the exception raised are those of `TtlPut` |
| Performance.LRUCache.Clear | src/ontology_framework/performance.py:103-109 | the new state is that of `TtlClear` |
| Performance.CacheManager.constructor | src/ontology_framework/performance.py:130-133 | no caches yet; the configured size and TTL |
| Performance.CacheManager.GetCache | src/ontology_framework/performance.py:135-143 | a registered name returns the same cache and changes nothing; a new name registers a fresh empty cache with the configured size and TTL |
| Performance.CacheManager.ClearAll | src/ontology_framework/performance.py:145-149 | every managed cache is cleared |
| Performance.CacheManager.ClearOne | src/ontology_framework/performance.py:149-150 | the cache under one name is cleared and every other managed cache is left as it was |
| Performance.RemoveFirst | src/ontology_framework/performance.py:240 | `list.remove` takes exactly one occurrence out of the list's multiset |
| Performance.LowerIdempotent | src/ontology_framework/performance.py:217-218 | lower-casing twice is lower-casing once |
| Performance.UniqueAddConflict | src/ontology_framework/performance.py:221-224 | a unique index refuses a value already present with ValueError |
| Performance.UniqueAddThenFind | src/ontology_framework/performance.py:221-257 | a new value in a unique index is found as `[id]` for a truthy id and `[]` for a falsy one; every other value reads as before |
| Performance.UniqueRemoveAnyId | src/ontology_framework/performance.py:231-237 | `remove` on a unique index drops the value whatever id is passed |
| Performance.ManyAddAppends | src/ontology_framework/performance.py:226-229 | a non-unique index appends the id to the value's list and leaves other values alone |
| Performance.ManyRemoveOne | src/ontology_framework/performance.py:238-246 | a non-unique index removes one occurrence of the id (nothing when absent), drops a key whose list empties, and leaves other values alone |
| Performance.ManyRemoveKey | src/ontology_framework/performance.py:245-246 | dropping a key keeps the index well formed and the other keys alone |
| Performance.ManyReplaceKey | src/ontology_framework/performance.py:240-244 | storing a non-empty list under a key keeps the index well formed and the other keys alone |
| Performance.CaseInsensitiveFind | src/ontology_framework/performance.py:217-251 | a case-insensitive index answers a string in any letter case alike, and finds an id just added under any case |
| Performance.RangeOverSpec | src/ontology_framework/performance.py:259-269 | the range scan returns exactly the ids stored under keys within the bounds, when no comparison fails |
| Performance.FindRangeSpec | src/ontology_framework/performance.py:259-269 | only a "btree" index answers a range; it answers exactly the ids stored under keys within the bounds |
| Performance.TotalOverZero | src/ontology_framework/performance.py:271-288 | the object count is zero exactly for an empty index |
| Performance.EstimateSpec | src/ontology_framework/performance.py:364-380 | the estimate is 0 exactly for an empty index or a value not stored as a key, and otherwise lies between 1 and the number of stored ids |
| Performance.PropertyIndex.constructor | src/ontology_framework/performance.py:210-213 | an empty index for the definition |
| Performance.PropertyIndex.Add | src/ontology_framework/performance.py:215-229 | the state of `IxAdd`, or ValueError with nothing changed on a unique conflict |
| Performance.PropertyIndex.Remove | src/ontology_framework/performance.py:231-246 | the state of `IxRemove` |
| Performance.IndexManager.constructor | src/ontology_framework/performance.py:293-295 | no indexes |
| Performance.IndexManager.CreateIndex | src/ontology_framework/performance.py:297-305 | ValueError iff the name is taken (nothing changes); otherwise a fresh empty index registered under the name |
| Performance.IndexManager.DropIndex | src/ontology_framework/performance.py:312-318 | True iff the name existed; afterwards it is absent and nothing else changed |
| Performance.IndexManager.StatesOf | src/ontology_framework/performance.py:320-323 | the indexes' states in creation order |
| Performance.BestFrom | src/ontology_framework/performance.py:345-358 | a chosen position lies in range and names an index on a filtered property |
| Performance.BestFromStep | src/ontology_framework/performance.py:345-358 | one more index replaces the running choice exactly when its estimate is strictly smaller |
| Performance.BestFromSpec | src/ontology_framework/performance.py:345-358 | the chosen index has the smallest estimate among indexes on filtered properties and is the first such; none is chosen iff no index is on a filtered property |
| Performance.OptimizeSpec | src/ontology_framework/performance.py:338-362 | `(None, [])` iff no index is on a filtered property; otherwise a registered index on a filtered property and its `find` of that filter's value |
| Performance.RunningMinimum | src/ontology_framework/performance.py:345-358 | the loop ends with the choice `BestFrom` specifies |
| Performance.OptimizeFilterQuery | src/ontology_framework/performance.py:338-362 | the result `Optimize` specifies over the manager's indexes in creation order |
| OptimizedCore.GetStoredFirst | src/ontology_framework/optimized_core.py:58-64 | a stored property is returned before any derived one, and the derived cache is untouched |
| OptimizedCore.GetFreshCached | src/ontology_framework/optimized_core.py:66-69 | a cached derived value younger than 300 s is returned as it is |
| OptimizedCore.GetRecomputes | src/ontology_framework/optimized_core.py:66-80 | a stale cached value is dropped and the value is recomputed when the object has an ontology and is not lazily loaded, else None; other cache entries are untouched |
| OptimizedCore.GetWf | src/ontology_framework/optimized_core.py:58-80 | `get` keeps the derived cache and its timestamps on the same keys and never changes the stored properties |
| OptimizedCore.InvalidateSpec | src/ontology_framework/optimized_core.py:137-144 | a non-empty name drops only that entry; no name (or the falsy empty name) clears the whole derived cache |
| OptimizedCore.InvalidateThenGet | src/ontology_framework/optimized_core.py:58-144 | after invalidating a derived property, `get` recomputes it (or gives None without an ontology or when lazily loaded) |
| OptimizedCore.OptimizedObjectInstance.constructor | src/ontology_framework/optimized_core.py:36-50 | the given properties, an empty derived cache, the access time |
| OptimizedCore.OptimizedObjectInstance.Get | src/ontology_framework/optimized_core.py:58-80 | the new state and the answer are those of `InstGet` |
| OptimizedCore.OptimizedObjectInstance.InvalidateCache | src/ontology_framework/optimized_core.py:137-144 | the new state is that of `Invalidate` |
| OptimizedCore.OldestIndex | src/ontology_framework/optimized_core.py:379-381 | `min` by timestamp: an entry with the smallest timestamp, the first such in key order |
| OptimizedCore.LookupSpec | src/ontology_framework/optimized_core.py:360-372 | a cached list is returned iff its entry is younger than 120 s (the cache unchanged); a stale entry is deleted |
| OptimizedCore.StoreSpec | src/ontology_framework/optimized_core.py:374-386 | the result is stored stamped now, the cache never exceeds 101 entries, and with at most 100 entries nothing else is evicted |
| OptimizedCore.StoreEvictsOldest | src/ontology_framework/optimized_core.py:376-383 | with more than 100 entries exactly one entry with the oldest timestamp is evicted before inserting |
| OptimizedCore.StoreThenLookup | src/ontology_framework/optimized_core.py:360-386 | a result just cached is returned by a lookup within 120 s |
| OptimizedCore.Matching | src/ontology_framework/optimized_core.py:214-216 | exactly the members whose `get(prop)` equals the value |
| OptimizedCore.FilterKeyCollision | src/ontology_framework/optimized_core.py:206-221 | as written the cache key `filter_<prop>_<value>` is the same for `Int(1)` and `Str("1")`, so a later filter on the string returns the integer's cached result |
| OptimizedCore.FilterCachedSpec | src/ontology_framework/optimized_core.py:206-221 | corrected (key holds the value itself): `filter` returns exactly the matching members, and every cached result is what its filter computes |
| OptimizedCore.GotValues | src/ontology_framework/optimized_core.py:330-334 | exactly the non-None values of the property among the members |
| OptimizedCore.RelatedSpec | src/ontology_framework/optimized_core.py:306-320 | a key is collected iff a link of the type joins it to a current key in the given direction |
| OptimizedCore.TraditionalSearchAround | src/ontology_framework/optimized_core.py:306-320 | the loop over the links collects the keys `Related` specifies |
| OptimizedCore.ApplyExtraFilters | src/ontology_framework/optimized_core.py:289-300 | the loop keeps the targets that satisfy every extra filter, in order |
| OptimizedCore.MatchesInOrder | src/ontology_framework/optimized_core.py:293-297 | checking the filters one by one up to the first mismatch gives true iff the target satisfies every filter |
| OptimizedCore.ExtraFiltersAreConjunction | src/ontology_framework/optimized_core.py:289-300 | a target survives iff it equals every extra filter on its property |
| OptimizedCore.OptimizedObjectSet.constructor | src/ontology_framework/optimized_core.py:158-170 | the given type and members, an empty result cache |
| OptimizedCore.OptimizedObjectSet.GetCachedResult | src/ontology_framework/optimized_core.py:360-372 | the new cache and answer are those of `Lookup` |
| OptimizedCore.OptimizedObjectSet.CacheResult | src/ontology_framework/optimized_core.py:374-386 | the new cache is that of `Store` |
| OptimizedCore.OptimizedObjectSet.Filter | src/ontology_framework/optimized_core.py:182-222 | corrected (see Findings): a fresh set of the same type holding exactly the matching members, with the cache updated as `FilterCached` describes |
| OptimizedCore.OptimizedObjectSet.Aggregate | src/ontology_framework/optimized_core.py:327-350 | 0.0 when no member has a value; ValueError for an unknown function; `count` is the number of values |
| OptimizedCore.OptimizedObjectSet.Count | src/ontology_framework/optimized_core.py:352-354 | the number of members |
| OptimizedCore.OptimizedObjectSet.First | src/ontology_framework/optimized_core.py:356-358 | the first member, None iff there is none |
| OptimizedCore.OptimizedObjectSet.ClearCache | src/ontology_framework/optimized_core.py:388-391 | the result cache is empty |
| Applications.Snapshot | src/ontology_framework/applications.py:7-24 | the snapshot carries the primary key; a non-empty property list reads exactly those names through `get`, otherwise the stored properties plus every derived property of the type; each value is what `get` answers |
| Applications.SchemaOf | src/ontology_framework/applications.py:57-65 | a view describes its own type, title and widgets, and the type's properties and derived properties in order |
| Applications.DescribeViewSpec | src/ontology_framework/applications.py:84-102 | ValueError iff neither a type nor a set is given; an unregistered type gets the normalised view: the three default widgets, its own properties and the "(Normalized View)" title |
| Applications.ObjectExplorer.constructor | src/ontology_framework/applications.py:78-79 | no views |
| Applications.ObjectExplorer.RegisterView | src/ontology_framework/applications.py:81-82 | the view is stored under its type's name, replacing any earlier one |
| Applications.ObjectExplorer.Describe | src/ontology_framework/applications.py:84-94 | `describe_view` against the registered views |
| Applications.RegisterThenDescribe | src/ontology_framework/applications.py:81-94 | after registering a view, describing its type (given directly or through a set) gives that view's schema, whatever was registered before |
| Applications.RegisterKeepsOthers | src/ontology_framework/applications.py:81-94 | registering a view for one type leaves every other type's description alone |
| Applications.Metrics | src/ontology_framework/applications.py:140-143 | one entry per metric; each is the aggregate of the property's non-None values; it fails iff some aggregate fails |
| Applications.Snapshots | src/ontology_framework/applications.py:131-133 | one snapshot per object, in order |
| Applications.PivotOf | src/ontology_framework/applications.py:134-157 | one plan: ValueError for an unknown link type, the search's error, or the first failing metric; otherwise the pivot with the link type, the related set's type, its snapshots and exactly its metrics |
| Applications.PivotContextOf | src/ontology_framework/applications.py:113-159 | ValueError without an ontology; otherwise the root count is the set's size and the root objects their snapshots, pivot i is `PivotOf` plan i, and an error is that of the first failing plan |
| Applications.RunSimulationSpec | src/ontology_framework/applications.py:204-219 | ValueError for an unknown name; the handler runs exactly when the name is known, the runner returned, `bind` is set and a handler exists; `bound` says the same |
| Applications.FunctionBackedSimulation | src/ontology_framework/applications.py:183-202 | the name and handler as given; a missing or empty description becomes "Backed by function <name>" |
| Applications.ResolveNeighbor | src/ontology_framework/applications.py:297-318 | a neighbour is found iff the current object is the link's source or its target end; the source check comes first and gives outbound and the target object, the target end gives inbound and the source object |
| Applications.VisitLinkInv | src/ontology_framework/applications.py:246-276 | visiting one link keeps nodes in the walk's universe within the depth bound and every edge between nodes, and never drops a node |
| Applications.WalkGrows | src/ontology_framework/applications.py:262-275 | adding the neighbour at `depth + 1` unless already a node, queueing it unless expanded or too deep, and recording an edge that starts (outbound) or ends (inbound) at the current object keep the walk invariant and drop no node |
| Applications.EdgesKept | src/ontology_framework/applications.py:269-275 | appending an edge between two nodes to edges that joined nodes of a smaller node table keeps every edge between nodes |
| Applications.NeighborInUniverse | src/ontology_framework/applications.py:256-261 | the other end of a link of a registered type is a key the walk can meet |
| Applications.VisitLinks | src/ontology_framework/applications.py:246-276 | the inner loop over all links keeps the walk invariant and never drops a node |
| Applications.Expand | src/ontology_framework/applications.py:242-276 | expanding one object over every link type touching its type keeps the walk invariant |
| Applications.PlaceSeeds | src/ontology_framework/applications.py:236-239 | every seed becomes a node at depth 0 and is queued at depth 0, with no edges yet |
| Applications.PlaceSeedInv | src/ontology_framework/applications.py:236-239 | placing one more seed keeps the invariant for the seeds placed so far |
| Applications.SeedInUniverse | src/ontology_framework/applications.py:236-239 | every seed's key is one the walk can meet |
| Applications.PopInv | src/ontology_framework/applications.py:241-278 | popping the queue, or marking one more object visited, keeps the walk invariant |
| Applications.Drain | src/ontology_framework/applications.py:241-278 | the queue loop keeps the walk invariant; each object is expanded at most once and only once it is a node |
| Applications.ExpandedGrows | src/ontology_framework/applications.py:277 | marking an object that was not yet expanded keeps the expanded objects free of repeats and adds exactly that object |
| Applications.GenerateSystemGraph | src/ontology_framework/applications.py:221-280 | ValueError iff the seeds lack this ontology; otherwise every seed is a node at depth 0, no depth exceeds `max_depth + 1`, every edge joins two nodes and starts (outbound) or ends (inbound) at an expanded object, and each object is expanded at most once |
| Applications.WalkGraph | src/ontology_framework/applications.py:279 | the invariant of a finished walk gives the promises of the returned graph: seeds at depth 0, depths within `max_depth + 1`, every edge between nodes and at an expanded object |
| Coercions.NatToStringIsNumeral | src/ontology_framework/osdk.py:138 | the decimal text of a natural number is a numeral of digits whose value is that number |
| Coercions.StripNoop | src/ontology_framework/osdk.py:148 | stripping leaves a string alone when it neither starts nor ends with a blank |
| Coercions.IntRoundTrip | src/ontology_framework/osdk.py:136-138 | `int(str(i)) == i` for every integer |
| Coercions.UnsignedNumeral | src/ontology_framework/osdk.py:138 | `int` of a numeral is its value |
| Coercions.SignedNumeral | src/ontology_framework/osdk.py:138 | `int` of a minus sign followed by a numeral is the negated value |
| Coercions.NotANumber | src/ontology_framework/osdk.py:138-142 | a string starting with neither a sign nor a digit is refused by `int` |
| Coercions.CoerceBool | src/ontology_framework/osdk.py:144-153 | a bool is itself; a string whose trimmed, lower-cased form is a true word or a false word is that; anything else by truthiness |
| Coercions.CoerceBoolNormalizes | src/ontology_framework/osdk.py:147-153 | for every string, letter case and surrounding blanks do not matter: it converts as its trimmed, lower-cased form does, except that a non-empty string of blanks is true |
| Osdk.GetObjectType | src/ontology_framework/osdk.py:38-44 | the registered type, NotFoundError iff it is not registered |
| Osdk.GetObject | src/ontology_framework/osdk.py:46-55 | NotFoundError for an unregistered type or when the lookup gives no object; the lookup's own error passed on; otherwise the stored object with that key |
| Osdk.ListObjects | src/ontology_framework/osdk.py:57-59 | NotFoundError for an unregistered type, else the ontology's scan of that type's stored objects |
| Osdk.GetFunction | src/ontology_framework/osdk.py:63-69 | the registered function, NotFoundError iff it is not registered |
| Osdk.CoercePrimitive | src/ontology_framework/osdk.py:129-165 | None stays None; STRING gives `str(value)` (the rendering for a non-value), BOOLEAN the word-set reading (`bool()` for a non-value); INTEGER succeeds iff `int` accepts the value and gives its value; only INTEGER, DATE and TIMESTAMP can fail, with ValidationError |
| Osdk.MaterializeObject | src/ontology_framework/osdk.py:167-200 | an instance must have the expected type; a dict or value without a usable key is ValidationError; a key naming no stored object is NotFoundError, the lookup's error is passed on, otherwise the stored object; an object set is refused |
| Osdk.CoerceArgument | src/ontology_framework/osdk.py:103-127 | a primitive is converted as `CoercePrimitive` says; an object reference is materialised; an object set must be of the declared type |
| Osdk.PrepareSpec | src/ontology_framework/osdk.py:84-94 | preparing the declared inputs succeeds iff every one is supplied and convertible, or missing and optional; the result holds exactly the supplied declared inputs, each converted; a failure is the first bad input's |
| Osdk.PrepareArgumentsSpec | src/ontology_framework/osdk.py:84-101 | `_prepare_arguments` succeeds iff every declared input is fine and no argument is undeclared; a missing required input, or an unknown argument, is refused |
| Osdk.PrepareArgumentsLoop | src/ontology_framework/osdk.py:84-101 | the loop, returning at the first failure, computes `PrepareArguments` |
| Osdk.ThenEmpty | src/ontology_framework/osdk.py:85-94 | nothing prepared in front leaves the outcome of the rest unchanged |
| Osdk.ThenAssoc | src/ontology_framework/osdk.py:85-94 | adding one prepared argument in front commutes with the rest of the loop |
| Osdk.MaterializedHasType | src/ontology_framework/osdk.py:167-200 | with every stored object in its own type's table, a materialised object always has the declared type |
| Osdk.ExecuteFunctionSpec | src/ontology_framework/osdk.py:71-75 | NotFoundError for an unknown function; arguments the SDK prepared pass the ontology's own argument checks, so the call reaches the logic exactly when the function has logic |
| Osdk.PreparedArgPasses | src/ontology_framework/osdk.py:84-94 | an input the SDK converted for a function passes the ontology's own argument check for that input |
| Exceptions.ErrorCode | src/ontology_framework/exceptions.py:61 | `error_code or <class name>`: a non-empty code is kept, otherwise the class name is used |
| Exceptions.OntologyError.constructor | src/ontology_framework/exceptions.py:37-68 | the message, category, severity, details and context as given, and the code `ErrorCode` picks |
| Exceptions.OntologyError.Text | src/ontology_framework/exceptions.py:84-86 | `[code] message`: the code in brackets and a blank, then the message |
| Exceptions.NoteIfSet | src/ontology_framework/exceptions.py:103-108 | a detail is recorded only for a set (truthy) value |
| Exceptions.ValidationDetails | src/ontology_framework/exceptions.py:103-108 | the field name and expected type when given and `str(field_value)` when not None are added to the given details, which are otherwise kept |
| Exceptions.NewValidationError | src/ontology_framework/exceptions.py:94-116 | category VALIDATION, severity MEDIUM, the code `ErrorCode` picks, and the field details |
| Exceptions.WithSeverity | src/ontology_framework/exceptions.py:414-416 | the errors of that severity in list order with repeats: one per matching position, the k-th at the k-th match; exactly the matching errors |
| Exceptions.WithCategory | src/ontology_framework/exceptions.py:418-420 | the errors of that category in list order with repeats: one per matching position, the k-th at the k-th match; exactly the matching errors |
| Exceptions.ErrorCollector.constructor | src/ontology_framework/exceptions.py:389-391 | no errors and no warnings |
| Exceptions.ErrorCollector.AddError | src/ontology_framework/exceptions.py:393-395 | the error is appended; warnings unchanged |
| Exceptions.ErrorCollector.AddWarning | src/ontology_framework/exceptions.py:397-400 | the warning's severity becomes LOW and it is appended; errors unchanged |
| Exceptions.ErrorCollector.GetAll | src/ontology_framework/exceptions.py:410-412 | the errors followed by the warnings |
| Exceptions.ErrorCollector.BySeverity | src/ontology_framework/exceptions.py:414-416 | the collected items (errors, then warnings) of that severity, in order with repeats; every one of them and only those |
| Exceptions.ErrorCollector.ByCategory | src/ontology_framework/exceptions.py:418-420 | the collected items (errors, then warnings) of that category, in order with repeats; every one of them and only those |
| Exceptions.ErrorCollector.Clear | src/ontology_framework/exceptions.py:422-425 | both lists empty, so neither errors nor warnings remain |
| Exceptions.BuiltinPermissionMisfiled | src/ontology_framework/exceptions.py:451-461 | as written, a built-in PermissionError is classified SYSTEM, where the intended category is PERMISSION |
| Exceptions.CategoryOf | src/ontology_framework/exceptions.py:451-461 | corrected: VALIDATION exactly for ValueError and TypeError, PERMISSION exactly for a permission failure, NOT_FOUND exactly for KeyError, SYSTEM otherwise; it agrees with the code on every other kind |
| Exceptions.HandleException | src/ontology_framework/exceptions.py:434-471 | corrected (see Findings): a framework error is returned as the same object with the context merged in and its severity kept; any other exception becomes a new OntologyError with its text (or the default message), its category and severity MEDIUM |
| Recovery.TimeUntilRetry | src/ontology_framework/error_recovery.py:111-117 | the rest of the recovery timeout, never negative; zero once a reset may be attempted, positive while an open breaker must still wait |
| Recovery.StepKeepsInv | src/ontology_framework/error_recovery.py:76-144 | every call keeps the breaker's invariant: it is OPEN only after a recorded failure, and CLOSED never holds a full failure count |
| Recovery.ClosedSuccess | src/ontology_framework/error_recovery.py:96-129 | in CLOSED a success resets the failure count and the breaker stays closed |
| Recovery.ClosedFailure | src/ontology_framework/error_recovery.py:99-144 | in CLOSED a counted failure adds one, records the time and re-raises, and opens the breaker exactly when the count reaches the threshold |
| Recovery.OpenRejects | src/ontology_framework/error_recovery.py:79-94 | before the timeout an OPEN breaker raises CIRCUIT_BREAKER_OPEN with its failure count and a positive wait, without running the function or changing state |
| Recovery.OpenProbes | src/ontology_framework/error_recovery.py:79-83 | after the timeout an OPEN breaker runs the function as HALF_OPEN with no successes counted yet |
| Recovery.HalfOpenFailure | src/ontology_framework/error_recovery.py:131-139 | in HALF_OPEN any counted failure opens the breaker again and records the time |
| Recovery.UnexpectedPassesThrough | src/ontology_framework/error_recovery.py:95-102 | an exception that is not the expected kind passes through and changes nothing beyond admitting the call |
| Recovery.HalfOpenCloses | src/ontology_framework/error_recovery.py:119-127 | from a fresh HALF_OPEN probe, fewer than `success_threshold` successes keep it half open, and exactly that many close it with no failures |
| Recovery.CircuitBreaker.constructor | src/ontology_framework/error_recovery.py:68-74 | CLOSED, no failures, no successes, no failure time |
| Recovery.CircuitBreaker.Call | src/ontology_framework/error_recovery.py:76-102 | the new state, the reply and whether the function ran are those of `Step` |
| Recovery.StopAt | src/ontology_framework/error_recovery.py:156-181 | the first attempt that ends the loop: every earlier one failed with a retryable exception, and this one did not |
| Recovery.RetryOutcome | src/ontology_framework/error_recovery.py:152-201 | at most `max_attempts` calls; every call but the last failed retryably; a success returns the last call's value; a non-retryable exception is re-raised; otherwise RETRY_EXHAUSTED after exactly `max_attempts` retryable failures, carrying the last one |
| Recovery.ExecuteWithRetry | src/ontology_framework/error_recovery.py:152-201 | the attempt loop ends with the result and number of calls `RetryOutcome` specifies |
| Recovery.Fallback | src/ontology_framework/error_recovery.py:279-304 | the fallback function's value when it has one and it returns; otherwise the fallback value when it is not None; otherwise the original error is re-raised |
| Recovery.FallbackStepSpec | src/ontology_framework/error_recovery.py:231-277 | a fresh cached success is returned without running the function; a stale one is dropped before the call; a success is cached (when caching is on) with the current time; a failure goes to the fallback; no other cache entry changes |
| Recovery.FallbackHandler.constructor | src/ontology_framework/error_recovery.py:226-229 | an empty result cache |
| Recovery.FallbackHandler.ExecuteWithFallback | src/ontology_framework/error_recovery.py:231-263 | the new cache, the result and whether the function ran are those of `FallbackStep` |
| Monitoring.Evaluate | src/ontology_framework/performance/monitoring.py:45-59 | each of the six operators compares the value with the threshold as it says; any other operator never fires |
| Monitoring.NegatedOperator | src/ontology_framework/performance/monitoring.py:45-59 | a rule and the rule with the negated operator never agree, and negating twice gives the operator back |
| Monitoring.EvaluateOne | src/ontology_framework/performance/monitoring.py:161-209 | one rule's iteration keeps every active alert in the history and unresolved, appends one alert iff the rule fires without an active alert, and leaves other rules' alerts alone |
| Monitoring.EvaluateAll | src/ontology_framework/performance/monitoring.py:157-211 | the loop over the rules keeps the active table consistent with the history, never shortens the history, and leaves rules it does not visit alone |
| Monitoring.EvaluateAllStep | src/ontology_framework/performance/monitoring.py:161 | evaluating one more rule is one more iteration |
| Monitoring.NewlyTriggered | src/ontology_framework/performance/monitoring.py:167-169 | exactly the rules that fire and had no active alert before |
| Monitoring.RaisedSnoc | src/ontology_framework/performance/monitoring.py:170-183 | the alerts raised for one more rule are those before plus its own |
| Monitoring.EvaluateAllHistory | src/ontology_framework/performance/monitoring.py:157-211 | over distinct rule names the history grows by exactly one new alert per rule that fires without an active alert, in rule order |
| Monitoring.OneHistory | src/ontology_framework/performance/monitoring.py:185-186 | one step appends past any point only its own new alert |
| Monitoring.EvaluateAllFiring | src/ontology_framework/performance/monitoring.py:167-186 | after `evaluate_rules` every firing rule has an active alert, the same one if it had one |
| Monitoring.EvaluateAllClearing | src/ontology_framework/performance/monitoring.py:195-200 | a rule whose metric is reported and no longer fires loses its active alert, which is marked resolved at the current time |
| Monitoring.OneKeepsResolved | src/ontology_framework/performance/monitoring.py:195-200 | one step resolves the alert of a rule that stops firing and leaves resolved alerts alone |
| Monitoring.EvaluateAllUnreported | src/ontology_framework/performance/monitoring.py:162-163 | a rule whose metric is not reported keeps its active alert, or its lack of one |
| Monitoring.HistoryGrows | src/ontology_framework/performance/monitoring.py:157-211 | `evaluate_rules` keeps every earlier alert, except that it may resolve an unresolved one at the current time; a resolved alert is never touched |
| Monitoring.AlertManager.constructor | src/ontology_framework/performance/monitoring.py:135-140 | no rules, no active alerts, an empty history |
| Monitoring.AlertManager.AddRule | src/ontology_framework/performance/monitoring.py:142-145 | the rule is stored under its name, replacing any earlier one; alerts unchanged |
| Monitoring.AlertManager.RemoveRule | src/ontology_framework/performance/monitoring.py:147-151 | the rule and its active alert are gone; the history is unchanged |
| Monitoring.AlertManager.EvaluateRules | src/ontology_framework/performance/monitoring.py:157-211 | the new alert state is that of `EvaluateAll` over the rules in registration order |
| Monitoring.AlertManager.EvaluateRule | src/ontology_framework/performance/monitoring.py:161-209 | the new alert state is that of `EvaluateOne` |
| Monitoring.ActiveCount | src/ontology_framework/performance/monitoring.py:213-216 | the active alerts carry their rules' names, so there are as many as active rules |
| Monitoring.AlertManager.ActiveAlerts | src/ontology_framework/performance/monitoring.py:213-216 | every active alert and only those, one per active rule, all in the history and unresolved |
| Monitoring.AlertManager.AlertHistory | src/ontology_framework/performance/monitoring.py:218-221 | `alert_history[-limit:]`: a suffix of the history; for a positive limit the last `limit` alerts (all when fewer), for 0 all of them, and for a negative limit all but the first `-limit` |
| Monitoring.TimeSeriesData.constructor | src/ontology_framework/performance/monitoring.py:79-81 | no points for any metric |
| Monitoring.TimeSeriesData.AddPoint | src/ontology_framework/performance/monitoring.py:83-90 | the point is appended and, once `max_points` are kept, the oldest is dropped; the latest value is then the new one |
| Monitoring.TimeSeriesData.RecentPoints | src/ontology_framework/performance/monitoring.py:92-94 | `points[-count:]`: a suffix of the points; for a positive count the last `count` points (all when fewer), for 0 all of them, and for a negative count all but the first `-count` |
| Monitoring.TimeSeriesData.LatestValue | src/ontology_framework/performance/monitoring.py:104-108 | the value of the last point, None iff there is none |
| Monitoring.TimeSeriesData.PointsInRange | src/ontology_framework/performance/monitoring.py:96-102 | exactly the kept points with a timestamp between the bounds, in order |
| DebugTools.IssuesOf | src/ontology_framework/debug_tools.py:366-373 | one issue per defect of the type (no primary key, no properties at all, an api name differing from its key), none exactly for a sound type, and the missing-key issue exactly when the key is missing |
| DebugTools.TypeIssuesCount | src/ontology_framework/debug_tools.py:355-377 | the issue list has one entry per defect, so at most three per registered type |
| DebugTools.TypeIssuesEmpty | src/ontology_framework/debug_tools.py:355-377 | there are no issues exactly when every registered type is sound |
| DebugTools.MissingKeyReported | src/ontology_framework/debug_tools.py:366-367 | a registered type without a primary key is reported |
| DebugTools.CountOf | src/ontology_framework/debug_tools.py:388-391 | a table's entry holds its size and its first five keys (all of them when there are at most five) |
| DebugTools.InspectObjectInstances | src/ontology_framework/debug_tools.py:379-395 | one entry per stored type and the total of the table sizes |
| DebugTools.TotalZero | src/ontology_framework/debug_tools.py:379-395 | the total is zero exactly when every stored table is empty |
| DebugTools.ContainsMiddle | src/ontology_framework/debug_tools.py:467 | Python's `sub in s` holds when `sub` occurs inside `s` |
| DebugTools.Recommendations | src/ontology_framework/debug_tools.py:463-479 | each of the four advices at most once, given exactly when some issue mentions its trigger phrase |
| DebugTools.StatusOf | src/ontology_framework/debug_tools.py:445-451 | poor below 70, fair below 85, good below 95, excellent otherwise, each band exactly |
| DebugTools.AssessHealth | src/ontology_framework/debug_tools.py:425-461 | 100 less 5 per type issue, 10 for no links among several types and 5 for no objects, clamped at 0; the issues in that order; the status from the unclamped score; the recommendations for those issues |
| DebugTools.HealthySystem | src/ontology_framework/debug_tools.py:425-461 | a sound registry with links and objects scores 100 and is excellent, with no issues and nothing to recommend |
| DebugTools.MissingKeyAdvised | src/ontology_framework/debug_tools.py:366-469 | a type without a primary key costs at least five points and brings the primary-key advice |
| DebugTools.KeyIssueMentionsKey | src/ontology_framework/debug_tools.py:367-467 | the missing-key issue mentions "primary key", whatever the type's name |
| OrderDelivery.WithPropertiesSpec | example/order_delivery/schema.py:9-31 | chained `add_property` calls keep the type's name and primary key and declare every property given |
| OrderDelivery.TypesSpec | example/order_delivery/schema.py:9-55 | Order, Merchant and Rider carry their names and the primary keys `order_id`, `merchant_id` and `rider_id` |
| OrderDelivery.ActualTSpec | example/order_delivery/schema.py:63-69 | the actual minutes are the elapsed seconds divided by 60 and rounded toward zero, None exactly when a timestamp is missing |
| OrderDelivery.TGapSpec | example/order_delivery/schema.py:76-86 | the gap is the expected minutes less the actual minutes; a stored (or derived) `actual_t_min` is used first and the timestamps only when it is None; None exactly when the expectation is missing or there are no actual minutes |
| OrderDelivery.TGapDerivedAgrees | example/order_delivery/schema.py:76-86 | reading `actual_t_min` through its derived property or recomputing it from the timestamps gives the same gap |
| OrderDelivery.OrderLogicSpec | example/order_delivery/schema.py:135-233 | an action's logic raises TypeError for parameters it does not declare, does nothing for a missing order, and otherwise stages its modifications to the order and then its links |
| OrderDelivery.CreateOrderLogic | example/order_delivery/schema.py:110-121 | `CreateOrder` raises TypeError for undeclared parameters; otherwise it stages the new order under the given key (status CREATED, created at `now`, the expected minutes) and then its link to the merchant, without raising |
| OrderDelivery.AssignmentsSpec | example/order_delivery/schema.py:135-233 | each action sets the status its row of the lifecycle table names, stamps its timestamp with `now`, and records the rider on arrival |
| OrderDelivery.MerchantOutFollows | example/order_delivery/schema.py:165-172 | `MerchantOut` stamps `ts_merchant_out` and moves RIDER_ARRIVED to READY_FOR_PICKUP, any other status staying as it was |
| OrderDelivery.RiderArriveFollows | example/order_delivery/schema.py:182-194 | `RiderArrive` records the rider, stamps the arrival, and leaves READY_FOR_PICKUP when the food is out, else RIDER_ARRIVED |
| OrderDelivery.PlainFollows | example/order_delivery/schema.py:135-233 | the other status actions set their fixed status and stamp their timestamp |
| OrderDelivery.ModsLength | example/order_delivery/schema.py:135-233 | one `modify_object` call per assignment, in order |
| OrderDelivery.AssignedDistinct | example/order_delivery/schema.py:135-233 | with distinct properties, each assignment is the property's final value |
| OrderDelivery.AssignedSpec | example/order_delivery/schema.py:135-233 | the last assignment to a property wins; an unassigned property keeps its value |
| OrderDelivery.AssignedAt | example/order_delivery/schema.py:135-233 | an assignment that no later one overrides is the property's final value |
| OrderDelivery.StageLinks | example/order_delivery/schema.py:194 | staging the link calls raises nothing, leaves the state alone and records one link creation per call |
| OrderDelivery.StageMods | example/order_delivery/schema.py:135-233 | modifications of a writable type's object, then links, stage without raising and without touching the state |
| OrderDelivery.LinkEditsAreCreates | example/order_delivery/schema.py:194 | the actions only create links |
| OrderDelivery.ApplyLinks | example/order_delivery/schema.py:194 | committing link creations changes only the link list |
| OrderDelivery.ApplyMods | example/order_delivery/schema.py:135-233 | committing the modifications is applying each to the stored order in turn |
| OrderDelivery.FetchModifiedAll | example/order_delivery/schema.py:135-233 | after the modifications the stored order holds its properties with every assignment applied; a missing order stays missing |
| OrderDelivery.RunMods | example/order_delivery/schema.py:135-233 | a run of modifications to one object, then links, commits the modifications whatever the links do |
| OrderDelivery.RunOrderAction | example/order_delivery/schema.py:135-233 | a status action or `RiderArrive` on an existing, writable order commits exactly its assignments to that order; the rest of the ontology is unchanged apart from links |
| OrderDelivery.OutThenArrive | example/order_delivery/schema.py:165-194 | from RIDER_CALLED, `MerchantOut` and then `RiderArrive` leave the order READY_FOR_PICKUP |
| OrderDelivery.ArriveThenOut | example/order_delivery/schema.py:165-194 | `RiderArrive` first (RIDER_ARRIVED), then `MerchantOut`, also ends READY_FOR_PICKUP |
| OrderDelivery.RegisterActionsFrame | example/order_delivery/schema.py:250-256 | actions whose targets are all registered register without error, changing nothing but the action registry |
| OrderDelivery.RegisterActionsSpec | example/order_delivery/schema.py:250-256 | actions with distinct names are each registered under their name; other names and the rest of the ontology are unchanged |
| OrderDelivery.RegisterActionsKeys | example/order_delivery/schema.py:250-256 | new, distinct action names are appended to the registry's order |
| OrderDelivery.OrderActionSpec | example/order_delivery/schema.py:110-233 | each order action is named, targets Order, runs the logic of its name, declares its parameters and has no access list |
| OrderDelivery.RegisterThree | example/order_delivery/schema.py:238-240 | the three types are registered and nothing but the type registry and the store changes |
| OrderDelivery.RegisterThreeKeys | example/order_delivery/schema.py:238-240 | three distinctly named types registered into an empty registry are its only keys, in order |
| OrderDelivery.RegisterLinksSpec | example/order_delivery/schema.py:90-244 | with Order, Merchant and Rider registered, both link types are registered as built and nothing else changes |
| OrderDelivery.ActionTypesSpec | example/order_delivery/schema.py:110-256 | seven actions with distinct names, each targeting Order and running the logic of its name |
| OrderDelivery.TableNamesDistinct | example/order_delivery/schema.py:110-233 | the lifecycle table names each action once |
| OrderDelivery.NamesSpec | example/order_delivery/schema.py:250-256 | the names of the actions, in order |
| OrderDelivery.SetupPrefix | example/order_delivery/schema.py:236-247 | before the actions, the three types and both links are registered and the action registry is untouched |
| OrderDelivery.SetupWithSpec | example/order_delivery/schema.py:236-256 | the registration sequence succeeds and registers everything it is given, whatever the pending functions |
| OrderDelivery.ActionsOnEmpty | example/order_delivery/schema.py:250-256 | order actions registered into an empty registry are its only keys, in order |
| OrderDelivery.PartsHold | example/order_delivery/schema.py:9-233 | the example's types carry their names, and its seven actions have distinct names and target Order |
| OrderDelivery.SetupWithFresh | example/order_delivery/schema.py:236-256 | on an empty ontology the sequence leaves exactly its own types, links and actions, in order |
| OrderDelivery.SetupSpec | example/order_delivery/schema.py:236-256 | `setup_ontology` succeeds on any well-formed ontology and registers the three types, both links and all seven actions as built |
| OrderDelivery.SetupCounts | example/order_delivery/schema.py:236-256 | on a fresh ontology it leaves exactly 3 object types, 2 link types and 7 action types |
| Oag.FileLinkLookup | example/order_delivery/verify_oag.py:143-150 | filing one link adds to a key exactly that link's entries at it, after those already there |
| Oag.IndexStep | example/order_delivery/verify_oag.py:139-150 | filing the next link turns the index of the links before it into the index of the links up to it |
| Oag.BuildLinkIndex | example/order_delivery/verify_oag.py:137-151 | the loop leaves under every key exactly the entries its links file there, link by link: forward at a link's source, reverse at its target, links of unregistered types skipped |
| Oag.LinkIndexed | example/order_delivery/verify_oag.py:139-150 | every link of a registered type is indexed forward at its source end and in reverse at its target end |
| Oag.EntryFromLink | example/order_delivery/verify_oag.py:139-150 | every entry comes from a link of a registered type with an end at that key |
| Oag.Overlay | example/order_delivery/verify_oag.py:154-162 | the stored properties are kept, and every derived property of the type whose value is not None is added; nothing else |
| Oag.PopFrontier | example/order_delivery/verify_oag.py:185-188 | taking the head of the queue keeps the breadth-first order of the rest |
| Oag.RecordNode | example/order_delivery/verify_oag.py:189-198 | recording a newly visited key that holds an object keeps every recorded node an existing object with its collected properties |
| Oag.EdgesGrow | example/order_delivery/verify_oag.py:203-218 | adding an edge from an expanded node along a whitelisted entry keeps every edge valid |
| Oag.Expand | example/order_delivery/verify_oag.py:203-218 | expanding a key below the hop bound keeps breadth-first order, the path and edge invariants, keeps every earlier path and queued key, and queues only unvisited keys one level deeper |
| Oag.ExpandEntry | example/order_delivery/verify_oag.py:204-218 | one index entry keeps breadth-first order and the path and edge invariants, keeps every earlier edge and path, and queues at most its neighbour, one level deeper and only when unvisited |
| Oag.AssembleOk | example/order_delivery/verify_oag.py:222-246 | the returned graph, built from the walk's nodes, paths and edges, has the shape `GraphOk` states |
| Oag.BuildLocalGraph | example/order_delivery/verify_oag.py:165-246 | ValueError when the anchor does not exist; otherwise at most `max_nodes` nodes, the anchor first with an empty path, every node an existing object with its collected properties, every path of at most `max_hops` whitelisted steps, every edge an index entry of a node nearer than `max_hops` along a whitelisted link |
| Oag.VerifyAnswer | example/order_delivery/verify_oag.py:249-274 | passes iff every fact's node is in the graph, its value matches and its evidence link (if any) is on the node's path or the node is the anchor; AssertionError otherwise |
| Oag.AnchorNeedsNoEvidence | example/order_delivery/verify_oag.py:269-274 | a fact about the anchor passes exactly when its value matches; no evidence link is needed |
| Oag.SummarizeAll | example/order_delivery/verify_oag.py:130-132 | one summary per object of the step's result, in order |
| Oag.AnchorObjects | example/order_delivery/verify_oag.py:100-106 | at most one anchor per id, only for a registered type, and none exactly when no id names an existing object |
| Oag.StepOfSpec | example/order_delivery/verify_oag.py:123-128 | corrected in reverse (see Findings, core.py:320-324): a successful step has no filter named like a parameter, reads a known alias, and its targets are the far ends of qualifying links from that set's objects, no key twice, within the limit, and all of them below the limit |
| Oag.PlanStateNext | example/order_delivery/verify_oag.py:126-132 | a successful step stores its set and its summaries under its alias |
| Oag.PlanStateAdvance | example/order_delivery/verify_oag.py:115-132 | one loop step over the stored state advances the plan's state by that step |
| Oag.PlanStateFails | example/order_delivery/verify_oag.py:123-128 | a failing step ends the whole plan with its error |
| Oag.PlanStateStuck | example/order_delivery/verify_oag.py:115-132 | an error stops the plan: later steps do not change it |
| Oag.PlanStateErr | example/order_delivery/verify_oag.py:115-132 | a failed plan failed at some step that was reached, with that step's error |
| Oag.PlanStateKeys | example/order_delivery/verify_oag.py:108-132 | after n steps the materialised aliases are exactly the first n aliases, and the sets kept are the anchor's and those aliases |
| Oag.PlanStateSourced | example/order_delivery/verify_oag.py:115-124 | every step of a plan that ran read the anchor set or an alias of an earlier step |
| Oag.PlanStateLast | example/order_delivery/verify_oag.py:129-132 | corrected in reverse (see Findings, core.py:320-324): an alias no later step reuses holds the set its step found and the summaries of that set's objects |
| Oag.ExecuteSearchPlanOfSpec | example/order_delivery/verify_oag.py:94-134 | the anchor lookup's error; ValueError without anchors; otherwise every step reads an earlier alias and the result's keys are exactly the aliases |
| Oag.SearchStep | example/order_delivery/verify_oag.py:126-128 | corrected in reverse (see Findings, core.py:320-324): exactly `SearchStepOf` on the source set's members: TypeError for a filter named like a parameter, otherwise its `search_around`; an eager source is left unchanged |
| Oag.RunStep | example/order_delivery/verify_oag.py:126-132 | corrected in reverse (see Findings, core.py:320-324): fails exactly as `SearchStepOf` does, with its error; otherwise a fresh eager set over the ontology holding the step's type and targets, and the summaries of exactly those targets |
| Oag.Advance | example/order_delivery/verify_oag.py:115-132 | one loop iteration: the plan's error when the step fails, otherwise the plan's state one step further |
| Oag.RunPlan | example/order_delivery/verify_oag.py:108-134 | the loop from the anchor set computes `PlanResult` over the stored state |
| Oag.ExecuteSearchPlan | example/order_delivery/verify_oag.py:94-134 | corrected in reverse (see Findings, core.py:320-324): exactly `ExecuteSearchPlanOf` over the stored state, so the errors, aliases and per-alias summaries the lemmas above state |
| McpTools.MatchFilters | example/order_delivery/fastmcp_server.py:254-269 | true iff every filter's key reads a value (the derived one behind `derived.`) that satisfies the filter |
| McpTools.MatchKeys | example/order_delivery/fastmcp_server.py:254-269 | the scan over the filter keys is true iff every one of them is satisfied |
| McpTools.NoFiltersMatch | example/order_delivery/fastmcp_server.py:254-269 | no filters match every object |
| McpTools.CoerceScalar | example/order_delivery/fastmcp_server.py:272-291 | None stays None; STRING gives the text, INTEGER the parsed integer or ValueError exactly when it does not parse, BOOLEAN the word-set reading, DATE the raw value |
| McpTools.IntegerTextRoundTrip | example/order_delivery/fastmcp_server.py:272-291 | an integer sent as its decimal text coerces back to that integer |
| McpTools.ParseParams | example/order_delivery/fastmcp_server.py:294-311 | succeeds iff every declared parameter is supplied and coerces or is absent and optional; the result holds exactly the supplied declared ones, coerced; ValueError otherwise |
| McpTools.PrepareActionParametersSpec | example/order_delivery/fastmcp_server.py:294-311 | ValueError for an unknown action, a missing required parameter, a failing coercion or an undeclared supplied key; otherwise exactly the supplied declared parameters, each coerced |
| McpTools.ResolveTraversal | example/order_delivery/fastmcp_server.py:564-591 | forward iff the anchor type is the link's source and the request is auto or forward; reverse iff it is the target and the request is reverse, or auto with the source not matching; ValueError otherwise |
| McpTools.UnknownDirection | example/order_delivery/fastmcp_server.py:591 | any direction other than auto, forward and reverse is rejected |
| McpTools.ClampLimit | example/order_delivery/fastmcp_server.py:495 | the limit kept within 1..100, unchanged inside it |
| McpTools.ListObjects | example/order_delivery/fastmcp_server.py:488-513 | ValueError for an unknown type; otherwise the first clamped-limit objects of the type, in store order, that match the filters |
| McpTools.TakeFirst | example/order_delivery/fastmcp_server.py:502-512 | stopping the scan once the limit is reached keeps the first matches of the whole list |
| McpTools.NormalizeFilters | example/order_delivery/fastmcp_server.py:526-529 | the keys are exactly the raw keys with their `derived.` prefix dropped |
| McpTools.LastFor | example/order_delivery/fastmcp_server.py:526-529 | the last raw key that normalises to a name, or none |
| McpTools.NormalizedLastWins | example/order_delivery/fastmcp_server.py:526-529 | each normalised key holds the value of the last raw key that normalises to it |
| McpTools.RelatedChecks | example/order_delivery/fastmcp_server.py:532-541 | passes only for a registered type, an existing anchor, a registered link type and a resolvable direction; ValueError otherwise |
| McpTools.RelatedOfErrors | example/order_delivery/fastmcp_server.py:541-545 | after the checks, TypeError for a filter named like a `search_around` parameter, and ValueError when the far end's type is not registered |
| McpTools.RelatedOfSpec | example/order_delivery/fastmcp_server.py:541-561 | corrected in reverse (see Findings, core.py:320-324): a success reports the tool's direction, at most the limit, no key twice, only far ends of qualifying links from the anchor along the walked direction, and all of them below the limit |
| McpTools.GetRelatedObjects | example/order_delivery/fastmcp_server.py:517-561 | corrected in reverse (see Findings, core.py:320-324): exactly `RelatedOf` with the normalised filters and clamped limit: the checks' errors, TypeError for a clashing filter, ValueError for an unregistered far type; a success as `RelatedOfSpec` states, restated |
| McpTools.SelfLinkReverseWalksForward | example/order_delivery/fastmcp_server.py:541-545 | on a self-link, "reverse" is reported while the traversal resolves forward |
| McpTools.GetRelatedObjectsDirected | example/order_delivery/fastmcp_server.py:517-561 | corrected (see Findings): the checks' errors and TypeError as in `GetRelatedObjects`; a success walks the reported direction, giving at most the limit, no key twice, only far ends of qualifying links from the anchor, and all of them below the limit |

## Left out

- Floating point: the models of DATE/TIMESTAMP are integer seconds, and metric values are integers. Aggregates are `real`, with no rounding.
- `McpTools.CoerceScalar`: TIMESTAMP is returned as a `FloatOf` tag around the raw value, because `float()` parsing is not modelled. So the model never fails on a TIMESTAMP, where the source raises ValueError for text `float()` cannot parse; only INTEGER can fail in the model.
- `Osdk.CoercePrimitive`: DATE and TIMESTAMP give an integer where the source gives a float.
- `OptimizedCore.OptimizedObjectSet.Aggregate`: pins only the empty, unknown-function and `count` cases; `sum`/`avg`/`max`/`min` are `DataSources.AggregateValues`, whose own lemmas state them.
- `DataSources.AggregateValues`: `max`/`min` over non-numbers is a TypeError; Python would order strings.
- Value equality is structural equality of `Values.Value`; Python's cross-type equalities (`1 == True`, `1 == 1.0`) are not modelled.
- Unicode digits in `int()` parsing are not modelled; only ASCII digits with an optional sign, after stripping whitespace.
- `str.lower()` and `str.strip()` are ASCII-only (`Values.Lower`, `Values.Strip`): letters outside A-Z keep their case and only the six ASCII blanks are stripped, where Python folds every cased letter and strips every Unicode space (a no-break space, say). This affects `Services.Search`, the case-insensitive index, `Coercions.CoerceBool` and the stripping in `Coercions.PyInt`.
- Reading a derived property cannot fail: the `derive` oracle is a total function, so filters (`ObjectSets.MatchesFilters`, `McpTools.MatchFilters`), property reads and `Oag.Overlay` never raise, where the source's `get` of a derived property raises ValueError when its backing function is missing or raises.
- Exception messages and the `details` of the exception subclasses other than `ValidationError` are not modelled; only the exception class is kept.
- Logging, metrics and profiling calls are left out, and so are the alert message formatting and alert handlers.
- Locks, `ConnectionPool`, `RedisCache` and the DuckDB query execution are left out.
- Separate adapter stores: every registered data source adapter reads and writes the one in-memory object store (`OntologyModel.State.storage`); only its `read_only` flag is kept per adapter. In the source each adapter has its own store, and a DuckDB-backed type reads DuckDB, so the model does not capture reads of a non-memory adapter seeing data the memory store does not hold.
- `RetryMechanism._calculate_delay` is left out because it is floating point with random jitter; retry is modelled by attempt outcomes only.
- `CacheStats` hit and miss rates, `get_access_frequency`, `AdaptiveCachePolicy`, `get_comprehensive_stats` and `TimeSeriesData.get_statistics` are left out because they are floating-point statistics.
- `IntelligentCache.should_cache` and `cache_query_result` are left out; they depend on a floating-point frequency.
- `AdaptiveIndexManager`, `PerformanceMonitor`, the performance advisor and index statistics and timing are left out because they are timing and metrics.
- The `cached` decorator and `ErrorRecoveryManager` are left out because their md5 keys are opaque and their wrapping is glue.
- `FallbackHandler`'s md5 cache key is an abstract key argument.
- The index-backed paths of `OptimizedObjectSet.filter` and `search_around` are left out: they need an `IndexManager` from the `performance` package, which does not provide one. Of the fallback paths, `filter` is modelled whole, but of `search_around` only the link scan of `_traditional_search_around` and the extra filters are; the `OptimizedObjectSet.search_around` driver that resolves the link type and direction, looks the keys up and wraps the result is not modelled.
- `OptimizedObjectInstance.get_cache_stats` and `OptimizedObjectSet.all` are left out; they are reporting only.
- `HierarchicalIndex.query` is not modelled: it iterates a Python `set`, so the order of the promotions it triggers is unspecified.
- `Vertex.register_simulation` is the `sims` map passed to `Applications.RunSimulationSpec`.
- `ObjectExplorer.open` and `ObjectView.render` are left out (print only), and so are `describe_schema` and `export_schema_for_llm` (text formatting).
- `runtime_metadata` and the serialised dictionaries of objects are left out; results are the modelled objects.
- The `search_around` scores are returned as a map from primary key to score, not written into shared instances.
- `modify_object` staged by an action is applied to the stored object at commit time. Python aliasing of the captured instance between staging and commit is not modelled.
- `Inspector.inspect_links` reads `self.ontology._links` (debug_tools.py:400, 406), an attribute the framework `Ontology` does not have, so as written `inspect_links` and `_assess_system_health`, which calls it (debug_tools.py:437), raise AttributeError on any framework ontology. The model does not capture that failure: the link count is an input of `DebugTools.AssessHealth`, as if the ontology exposed its links.
- The iteration order of the object store is an explicit `order` argument where the source iterates a dict of instances.
- In the answer-verification graph and in the system graph of `generate_system_graph` (`Applications.NodeKey`), node ids are (type, primary key) pairs instead of the formatted "type:pk" strings. So a type's objects with keys `1` and `"1"` are two nodes here, where the source's string ids make them one. The answer-verification graph's edges are a set whose listing order is not modelled.
- `defaultdict` inserting a key on a read is not modelled for the value and composite indices, the time series, `LinkIndexManager` and the link index of `verify_oag.py`: there a missing key reads as empty and the read leaves the map unchanged. `HierarchicalIndex`'s access tracker does model the insert.
- JSON loading in the tool server is left out: filters and parameters are given decoded. A JSON list as a filter value in `get_related_objects` is not modelled.
- `Monitoring.AlertManager.ActiveAlerts`: returns the active alerts as a set; the list's order (the insertion order of the active table) is not modelled.
- The object sets `execute_search_plan` keeps by alias are kept as their type and objects (`Oag.Context`); each step runs `search_around` on a fresh eager set built from its source alias. Every set of a plan is eager, and `search_around` leaves an eager set unchanged, so this gives the same results.
- `Indexing.LinksStaySymmetric`: states the corrected link index (inner sets created on demand). As written the add half never happens and the remove half raises KeyError on every call (`IndexLinkRaises`, `RemoveLinkRaises`), so the as-written index stays empty and trivially mirrored.
- `Indexing.LinkLookups`: states the lookups after the corrected `index_link` and `remove_link`. As written both raise KeyError, so no lookup ever finds a link (`IndexLinkRaises`, `RemoveLinkRaises`).

## Findings

| source | as written | input that shows it | evidently intended | confidence | as-written member | corrected member |
|---|---|---|---|---|---|---|
| src/ontology_framework/performance/indexing.py:329-334 | `index_link` appends into plain inner dicts created empty in the constructor | the first `index_link` on a new manager raises KeyError | inner `setdefault`, so the link is indexed in both directions | not executed | Indexing.IndexLinkRaises | Indexing.LinkAdded |
| src/ontology_framework/performance/indexing.py:336-341 | `remove_link` discards from the same plain inner dicts | every `remove_link` on a new manager raises KeyError, since `index_link` never stores a key | inner sets created on demand, so the link is dropped in both directions | not executed | Indexing.RemoveLinkRaises | Indexing.LinkRemoved |
| src/ontology_framework/performance/indexing.py:172-190 | `partial_query` builds the composite prefix in the order the filters are given | filters on (b, a) for a composite index over (a, b, c) miss an object that matches both | the prefix is built in the index's property order | not executed | Indexing.PartialAsWrittenMisses | Indexing.PartialFindsAdded |
| src/ontology_framework/optimized_core.py:206-221 | the filter cache key is `filter_<prop>_<str(value)>` | filtering on `1` and then on `"1"` returns the cached integer result for the string; so do property `a_b` with value `c` and property `a` with value `b_c`, which share `filter_a_b_c` | a key that keeps the value's type | not executed | OptimizedCore.FilterKeyCollision | OptimizedCore.FilterCachedSpec |
| src/ontology_framework/exceptions.py:451-461 | `isinstance(e, PermissionError)` names the module's own subclass, which shadows the built-in | a built-in `PermissionError` is classified SYSTEM | category PERMISSION | not executed | Exceptions.BuiltinPermissionMisfiled | Exceptions.CategoryOf |
| example/order_delivery/fastmcp_server.py:541-545 | the reported direction comes from `_resolve_traversal`, but `search_around` resolves the direction again | `direction="reverse"` on a link from a type to itself reports reverse but walks forward | walk in the direction reported | not executed | McpTools.SelfLinkReverseWalksForward | McpTools.GetRelatedObjectsDirected |
| src/ontology_framework/performance/cache.py:583-600 | `frequency > 50` is checked before `frequency > 100`, so the tripled TTL is unreachable | a query used 150 times gets 600 s instead of 900 s | the thresholds checked from the largest down | not executed | Cache.CacheTtlTripleUnreachable | Cache.CacheTtl |
| src/ontology_framework/core.py:320-324 | in reverse, `target_obj` is the set's own member at the link's target, and it is what the loop filters, scores under and appends | a merchant set `[m1]` whose merchant has three orders: its reverse `search_around("OrderHasMerchant")` returns `[m1]`, not the three orders | append the stored object at the link's source, the far end | not executed | ObjectSets.ReverseCollectsMember | ObjectSets.TargetIsFarEnd, ObjectSets.SearchAroundOfSpec, ObjectSets.ObjectSet.SearchAround |
