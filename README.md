# Moonridge live queries, modelled in Dafny

Moonridge keeps query results live across a socket connection: a client
subscribes to a query and the server pushes every later change.
This project models the synchronisation core in Dafny and proves what it
guarantees. The core has four parts:

- **Query builder** (`query_builder.dfy`, module `QueryBuilder`). `MRQuery`
  checks an untrusted, JSON-deserialised list of `{mN, args}` steps:
  - an allow-list of methods, a bound of 70 steps and array-shaped arguments;
  - a per-method validator, and methods that may be used only once;
  - a rule that `sort` may not follow `count`;
  - in a live query, the loop stops at the first `count`.

  It records an options summary and the calls applied to the backend query.
  The method keeps the source's `while` loop and is proved equal to a
  recursive function. Independent reference definitions characterise when
  that function succeeds and what it returns.
- **Server cache** (`rpc_methods.dfy`, module `RpcMethods`). This covers:
  - the `schema.onAll` handler, which decides for each live query whether to
    push, splice and notify, depending on the event kind, the store's
    existence check and whether the document is cached;
  - `callListeners`, which notifies last-registered first;
  - the per-socket `mrEventIds` subscriptions;
  - the deduplication and seeding done by `channel.liveQuery`.
- **Client reconciler** (`live_query_sync.dfy` and `client_model.dfy`).
  - `LiveQuerySync` states the delta handlers `on_create`/`on_push`,
    `on_update` and `on_remove` as functions on a view (`docs` plus
    `count`), along with population and the lemmas about them.
  - `ClientModel` is the imperative model. It has the `Model` tables
    (`_LQs`, `_LQsByQuery`, `lastIndex`) and the live-query object:
    - the handlers' `while (i--)` searches and `getDocById`;
    - `stop`, `exec`, and population with its queue of deltas that arrive
      before the first result;
    - the `on`/`off`/`_invokeListeners` listener registry.

    Each method is proved against the `LiveQuerySync` functions or the
    listener-slot functions.
- **Change events** (`change_events.dfy`, module `ChangeEvents`). The
  discriminator hooks use the `newDocs` set to report a save as `create`
  or `update`. The module also has the single-registration guard of
  `registerUserModel`.

`shared.dfy` (module `Shared`) holds `Doc`, `Option`, `angular.extend`,
and JavaScript's `splice` with its clamped start. It also holds the
positional overwrite `while (i--) a[i] = b[i]`, which both the client and
the server use.

Three inputs are abstract:
- `JSON.stringify` on client queries and `mquery-stringify` on server
  queries are taken to be injective, so a query is identified by its key;
- the store's existence check is a boolean input;
- the per-method validators are a parameter.

Where the documented behaviour and the code differ, the model follows the
code:
- After `on_update` removes, moves or merges a document in a document
  query, `count` is not recomputed, because the handler returns before
  `recountIfNormalQuery`. The same holds when it inserts a missing
  document on a truthy signal (client/moonridge-model.js:300-306). A
  result `[d1, d2]` with count 2 becomes `[d2]` and keeps count 2.
  `UpdateLeavesCountStale` proves this.
- The query builder refuses only `sort` after `count`. `count` after `sort`
  is accepted, and in a live query a `sort` after `count` is never reached.
  `CountSortOrders` proves this. The client refuses the pair in `exec`,
  whatever the order.
- `on_create` recounts for every document query, whether or not it has a
  `limit`.

## Model

| member | source | states |
|---|---|---|
| Shared.Extend | client/moonridge-model.js:285-291 | `angular.extend` keeps the target's fields, adds the source's, and the source's values win |
| Shared.SpliceStart | client/moonridge-model.js:232 | the position `splice` works at: negative starts count from the end, and the result is clamped to the array |
| Shared.InsertAt | client/moonridge-model.js:232 | `splice(start, 0, x)`: one longer, `x` at the clamped start, prefix and suffix kept, multiset grows by `x` |
| Shared.RemoveAt | client/moonridge-model.js:270 | `splice(i, 1)`: one shorter, elements after `i` shift down by one, multiset loses `s[i]` |
| Shared.Overlay | client/moonridge-model.js:392-398 | after the positional overwrite the first `|b|` positions hold `b` and a longer tail of `a` survives |
| Shared.OverlayInPlace | mr-rpc-methods.js:184-188 | the `while (i--)` overwrite loop yields `Overlay(a, b)` |
| QueryBuilder.MRQuery | query-builder.js:25-82 | the loop, with its early `break`, returns exactly `Build`; a non-array query and a query of more than 70 steps throw their errors |
| QueryBuilder.StepCharacterised | query-builder.js:40-76 | one step goes on exactly when it is allowed, has array args, passes its validator, is not a second single-use call and is not `sort` after `count`; it records the first args or appends to `populate` |
| QueryBuilder.RunCharacterised | query-builder.js:38-77 | the loop from any index succeeds exactly when the steps it reads are acceptable together, and then returns their summary |
| QueryBuilder.BuildCharacterised | query-builder.js:31-77 | `MRQuery` succeeds if and only if the query is an array of at most 70 steps whose processed steps are acceptable; the result is their options summary and applied calls |
| QueryBuilder.RunFailsAt | query-builder.js:38-77 | from any index before the first refused step, the loop passes the acceptable steps and throws that step's refusal |
| QueryBuilder.BuildFailsAt | query-builder.js:39-75 | when the processed steps are acceptable up to step `k` but not including it, `MRQuery` throws step `k`'s error: `UnsupportedMethod` for a name outside the allow-list, `ArgsNotArray` for non-array args, the validator's own `Error` unchanged, the sort-with-count error for `sort` after `count`, otherwise the called-twice error |
| QueryBuilder.FirstRefusedStep | query-builder.js:38-77 | every query of at most 70 steps that `MRQuery` refuses has such a first refused step among the processed ones |
| QueryBuilder.LengthBound | query-builder.js:34-36 | more than 70 steps always fails with the length error; at most 70 (exactly 70 included) never fails with it |
| QueryBuilder.FalsyEndsQuery | query-builder.js:39 | steps after the first falsy element are never validated nor applied |
| QueryBuilder.LiveCountEndsQuery | query-builder.js:65-68 | in a live query, steps after the first `count` are never validated nor applied |
| QueryBuilder.DuplicateRejected | query-builder.js:56-58 | a single-use method occurring twice among the processed steps makes the builder throw |
| QueryBuilder.SortAfterCountRejected | query-builder.js:51-54 | a `sort` after a `count` among the processed steps makes the builder throw |
| QueryBuilder.CountSortOrders | query-builder.js:50-68 | `sort` then `count` is accepted; a live `count` then `sort` is accepted with `opts.count = true` and nothing applied; a non-live `count` then `sort` throws |
| QueryBuilder.LiveCountNotApplied | query-builder.js:65-69 | in a live query `count` is never applied to the backend query, and `opts.count` is `true` |
| LiveQuerySync.FindLast | client/moonridge-model.js:265-268 | the `while (i--)` search finds the last document with the `_id`, or -1 when none has it |
| LiveQuerySync.CountQueryDeltas | client/moonridge-model.js:226-262 | on a count query the deltas never touch `docs` and move `count` by +1 per create/push, -1 per remove, and +1/-1/0 per update signal |
| LiveQuerySync.CountPopulationCommutes | client/moonridge-model.js:382-388 | since population adds the initial count, applying it before or after the queued deltas gives the same count: base + initial + net deltas |
| LiveQuerySync.CountAdditivityExample | client/moonridge-model.js:385-388 | an initial count of 5 with two creates and one remove queued ends at 6 |
| LiveQuerySync.FirstPopulation | client/moonridge-model.js:143 | a fresh live query populated with documents holds exactly them with their number as count, or holds the initial count |
| LiveQuerySync.CreatedInserts | client/moonridge-model.js:231-239 | `on_create` on a document query inserts at the clamped index or appends, drops the last element when over `limit`, and sets `count` to the length |
| LiveQuerySync.CreatedKeepsLimit | client/moonridge-model.js:236-238 | a result within its `limit` stays within it after a create |
| LiveQuerySync.SortedInsertEvicts | client/moonridge-model.js:231-238 | on a full result a sorted insert inside it evicts the previous last element |
| LiveQuerySync.UpdateFound | client/moonridge-model.js:265-297 | a found document is removed on `false`; it moves to `target - 1` or `target`, keeping the length, on a different numeric position; otherwise it is merged in place; `count` is untouched |
| LiveQuerySync.UpdateMissing | client/moonridge-model.js:299-309 | a missing document is inserted (at the position or the end) on a truthy signal; on a falsy one, including 0, `docs` is unchanged and only `count` is recomputed |
| LiveQuerySync.UpdateMembership | client/moonridge-model.js:265-307 | with unique ids, `on_update` keeps ids unique, and the document is present afterwards if and only if it was present and the signal is not `false`, or it was missing and the signal is truthy |
| LiveQuerySync.UpdateLeavesCountStale | client/moonridge-model.js:269-271 | a `false` update removes the document but leaves `count` at its old value |
| LiveQuerySync.RemovedSpec | client/moonridge-model.js:317-335 | a count query decrements; a document query removes the last entry with the id and decrements, returning true, exactly when the id is present; otherwise nothing changes and it returns false |
| LiveQuerySync.RemovedUnique | client/moonridge-model.js:324-330 | with unique ids, a removed id is gone and the rest stay unique |
| LiveQuerySync.ApplyAllConcat | client/moonridge-model.js:225 | deltas compose in arrival order: applying a queue and then more deltas is applying them all |
| ClientModel.FiredIsReversedPresent | client/moonridge-model.js:168-171 | listeners are called in reverse registration order |
| ClientModel.OnIsLifo | client/moonridge-model.js:181-183 | `on` returns the new slot's index, and the new callback is the first called for its event; other events are untouched |
| ClientModel.OffClearsSlot | client/moonridge-model.js:191-198 | `off` returns true exactly on an occupied slot, empties only that slot without shifting any id, and a second `off` of the same id returns false |
| ClientModel.RunAsWrittenAgrees | client/moonridge-model.js:168-171 | without emptied slots the loop as written calls exactly the corrected list; with one it throws |
| ClientModel.InvokeAfterOffThrows | client/moonridge-model.js:163-198 | `on(a)`, `on(b)`, `off(0)` and then an event: as written only `b` is called and the handler throws; corrected, `b` is called |
| ClientModel.Model.constructor | client/moonridge-model.js:47-52 | a model starts with `lastIndex = 0` and empty tables |
| ClientModel.Model.StartLiveQuery | client/moonridge-model.js:139-143 | a throw of the previous live query's `stop` propagates and changes nothing; otherwise the previous live query is stopped, and on confirmation both its table entries are gone; the new one starts with empty `docs`, zero `count`, the previous query and methods, and no listeners; `lastIndex` is kept |
| ClientModel.Model.Route | client/moonridge-model.js:113-124 | a registered index gets the delta (applied now, or queued before population) and its listeners invoked; its other fields and every other live query are unchanged; an unknown index changes no live query |
| ClientModel.Model.Register | client/moonridge-model.js:373-377 | the query and the next index (one past the counter, never handed out before) both name the live query; the counter advances by one |
| ClientModel.LiveQuery.On | client/moonridge-model.js:181-183 | the state after `on` is `AddListener` of the old state |
| ClientModel.LiveQuery.Off | client/moonridge-model.js:191-198 | the state after `off` is `RemoveListener` of the old state |
| ClientModel.LiveQuery.InvokeListeners | client/moonridge-model.js:163-172 | the `any` listeners, then the event's own, each last-registered first, with emptied slots skipped; the source's order when there are none |
| ClientModel.LiveQuery.GetDocById | client/moonridge-model.js:209-217 | null exactly when no document has the id; otherwise the last document with it |
| ClientModel.LiveQuery.RecountIfNormalQuery | client/moonridge-model.js:218-222 | a document query's `count` becomes the length; a count query's stays |
| ClientModel.LiveQuery.OnCreate | client/moonridge-model.js:224-241 | the handler edits `docs`/`count` in place to `Created` of the old view |
| ClientModel.LiveQuery.OnUpdate | client/moonridge-model.js:249-311 | the search loop and its branches edit the view to `Updated` of the old view |
| ClientModel.LiveQuery.UpdateCount | client/moonridge-model.js:251-262 | on a count query a numeric signal or `true` adds one, `false` subtracts one, and any other signal leaves `count` alone |
| ClientModel.LiveQuery.OnRemove | client/moonridge-model.js:317-336 | the search loop edits the view and returns as `Removed` of the old view |
| ClientModel.LiveQuery.ApplyDelta | client/moonridge-model.js:242 | each delta goes to its handler (`on_push` is `on_create`) |
| ClientModel.LiveQuery.Deliver | client/moonridge-model.js:225 | a delta is applied when the live query is populated, and otherwise is queued behind the population with the view unchanged |
| ClientModel.LiveQuery.Exec | client/moonridge-model.js:364-379 | `count` with `sort` throws and changes nothing; a running live query with the same query is returned, and the model, the index, the population state and the hooks are unchanged; otherwise the next index (1 for the first) is fresh, both tables register this live query, and it waits for population |
| ClientModel.LiveQuery.Populate | client/moonridge-model.js:380-418 | the view becomes the initial result added onto the old view, followed by the queued deltas in arrival order; `init` listeners fire; one more hook pair is registered, or `stopped` is cleared on a re-execution |
| ClientModel.LiveQuery.Seed | client/moonridge-model.js:382-399 | the population step is additive: `count +=` the initial count or document number, and the documents overwrite positions |
| ClientModel.LiveQuery.Drain | client/moonridge-model.js:250 | the queued handlers run in the order they were chained, and the queue empties |
| ClientModel.LiveQuery.Stop | client/moonridge-model.js:338-358 | throws exactly when the index is not numeric and registered; else `stopped`; on confirmation `count` resets (count query) or `docs` empties, and both table entries go |
| ClientModel.LiveQuery.Disconnect | client/moonridge-model.js:404-406 | once at least one hook pair is registered, a disconnect marks the live query stopped |
| ClientModel.RegisteredSpec | client/moonridge-model.js:375-378 | `m` registrations after index `last` give `lq` the indices `last + 1` to `last + m` and keep every other entry |
| ClientModel.LiveQuery.ReExecRest | client/moonridge-model.js:408-414 | each later `reconnect` handler empties the result and re-runs `exec`: nothing is registered while the query's holder runs; a stopped live query is registered again under one fresh index per handler |
| ClientModel.LiveQuery.Reconnect | client/moonridge-model.js:402-414 | with no hook pair nothing happens; otherwise every pair empties `docs`, zeroes `count` and runs `exec(true)`: `count` with `sort` throws at the first; a running holder of the query is returned and nothing is registered; otherwise this live query is registered under one fresh index (or one per pair while it is stopped), unpopulated, with socket events skipped and no new hooks |
| RpcMethods.IndexOf | mr-rpc-methods.js:18 | `indexOf` gives the first position of the document, and -1 exactly when it is not cached |
| RpcMethods.ReactMultiplicity | mr-rpc-methods.js:26-52 | for any cache, duplicates included: a `remove` of a cached document drops one copy; a matching `create` adds one; a matching `update` adds it only when absent; a non-matching `update` of a cached document drops one copy; nothing else changes its multiplicity |
| RpcMethods.ReactMembership | mr-rpc-methods.js:26-52 | for a cache without duplicates, after an event the document is cached if and only if: a `create` that matches or was cached; an `update` that matches; another non-remove event of a cached document; never after a `remove` |
| RpcMethods.ReactNotifies | mr-rpc-methods.js:26-52 | listeners are called if and only if: a `remove` of a cached document, a matching `create`, or an `update` that matches or was cached |
| RpcMethods.ReactOnlyTouchesDoc | mr-rpc-methods.js:26-52 | only the event's document is added (by `push`) or removed (by `splice`); all others keep their multiplicity |
| RpcMethods.ReactKeepsNoDup | mr-rpc-methods.js:39-44 | the cache keeps no duplicate, except after a `create` of an already cached, matching document |
| RpcMethods.CreateOfCachedDuplicates | mr-rpc-methods.js:35-38 | a matching `create` of a cached document appends it a second time |
| RpcMethods.Notifications | mr-rpc-methods.js:20-25 | the listener calls are the listeners from the last registered to the first |
| RpcMethods.CallListeners | mr-rpc-methods.js:20-25 | the `while (i--)` loop calls the listeners last-registered first |
| RpcMethods.HandleOne | mr-rpc-methods.js:16-53 | one live query's cache and its calls are as `React` decides |
| RpcMethods.HandleAll | mr-rpc-methods.js:15-54 | the `forEach` over the keys handles each live query once, in key order |
| RpcMethods.ReactAllKeys | mr-rpc-methods.js:15-54 | each handled key's entry is reacted once, and the other entries are unchanged |
| RpcMethods.Registry.OnAll | mr-rpc-methods.js:14-56 | every live query's cache becomes `Reacted` of the old one, listeners and query kept; the calls are all live queries' calls in key order |
| RpcMethods.SubscribedIds | mr-rpc-methods.js:101-119 | after a subscription the name maps to the new id, and the other names keep theirs |
| RpcMethods.Connection.Unsubscribe | mr-rpc-methods.js:79-85 | the name is deleted only when `schema.off` succeeded; the result is `schema.off`'s |
| RpcMethods.Connection.Subscribe | mr-rpc-methods.js:98-128 | the corrected subscription: an empty name throws; the table and the disconnect hook are set up once; the id handed to `schema.off` is exactly the truthy id already stored under the name, and none otherwise; the name then maps to the new id, so at most one id per name |
| RpcMethods.Connection.SubscribeAll | mr-rpc-methods.js:130-136 | every event name subscribed in turn; the table gains the collected ids |
| RpcMethods.SubscribeThrowsWithoutWhen | mr-rpc-methods.js:98-123 | as written, every subscription of a name throws, at `when.defer()` or earlier at the plain `unsubscribe` call, leaving the table created but recording no id |
| RpcMethods.ResubscribeThrows | mr-rpc-methods.js:108-113 | were a `when` in scope, re-subscribing a name with a truthy stored id whose `schema.off` succeeds would throw at the plain `unsubscribe` call; every other subscription would agree with the corrected one |
| RpcMethods.LiveQuerySubscribeThrows | mr-rpc-methods.js:155-157 | as written, `liveQuery` throws in its first call of `subscribeAll` |
| RpcMethods.Registry.LiveQuery | mr-rpc-methods.js:155-191 | the socket is subscribed to every event name (no names: its table is unchanged), and its disconnect hook set up on first use; known key: cached docs, no new entry, and a socket is added at most once; new key: one entry seeded from the result, with the socket listening; the socket's bookkeeping stays consistent |
| RpcMethods.Registry.Join | mr-rpc-methods.js:160-172 | a known key answers its cached docs and adds the socket's listener only when it is not registered |
| RpcMethods.Registry.Open | mr-rpc-methods.js:173-190 | a new key gets one entry with the socket's listener and the result as its docs |
| ChangeEvents.DiscriminatorHooks.OnPreSave | moonridge.js:62-72 | the id is remembered exactly when the document is new |
| ChangeEvents.DiscriminatorHooks.OnPostSave | moonridge.js:75-83 | a remembered id is forgotten and reported as `create`; any other is reported as `update` |
| ChangeEvents.DiscriminatorHooks.OnPostRemove | moonridge.js:85-87 | a removal is always reported as `remove` |
| ChangeEvents.DiscriminatorHooks.Fire | moonridge.js:62-87 | one hook firing changes the set and emits as `Step` says |
| ChangeEvents.OneEmissionPerPostHook | moonridge.js:75-87 | every post hook emits exactly one event, every pre-save none |
| ChangeEvents.CreatesBounded | moonridge.js:62-82 | an id is reported as created at most once per save made while it was new |
| ChangeEvents.ResavesUpdate | moonridge.js:79-81 | saves of a document that is not new report only `update` |
| ChangeEvents.NewDocLifecycle | moonridge.js:62-82 | a new document's first save reports `create` and each later save `update` |
| ChangeEvents.OnlyFirstRegisters | moonridge.js:108-117 | starting from none, only the first registration succeeds and its model stays the user model |
| ChangeEvents.Moonridge.RegisterUserModel | moonridge.js:108-118 | throws exactly when a user model is registered; otherwise it becomes the user model, listed as "user" |

## Left out

- I/O and transport: sockets, `socket.io-rpc` channels and `rpc.expose` are not modelled. The asynchronous `loadClientChannel` callbacks run immediately. The server's `unsubLQ` confirmation is the `unsubscribed` argument of `Stop`.
- Concurrency: the `findOne` callbacks in `onAll` and the `exec` in `liveQuery` are asynchronous. Events and requests are modelled one at a time, in order.
  - Interleavings are not modelled. One example: two `liveQuery` requests for the same new key, where the second finds the entry created and uses an undefined `LQ`.
- Object identity: the server's `indexOf(doc)` and `registeredLQs.indexOf(LQ)` compare references. The model compares values and keys.
- `socket.registeredLQs` is assumed to exist. Whoever sets up the connection creates it, and that code is not part of this model. moonridge.js keeps a `socket.moonridge.registeredLQs` object instead.
- The store and the libraries that are not shown are parameters or abstract values:
  - mongoose queries (`makeFindQueries`, the store's existence check, `query.exec()`);
  - `QueryChainable`: the chained query and its `indexedByMethods`, reduced to `count`, `sort` and `limit`;
  - `moonridge-method-validations`;
  - `mquery-stringify` and `JSON.stringify`, taken to be injective;
  - `schema-events`: the event-name list, parameter `names`;
  - the ids `schema.on` returns and the answers of `schema.off`.
- The listener objects that mr-rpc-methods.js:23 calls as functions stay abstract. A call is recorded as a `Notification`.
- The model does not observe client callbacks. A callback is an identifier, and the effect of calling it is not modelled.
- ClientModel.Model.Route: it applies the delta before invoking the listeners. In the source the listeners run first, because the handler body is deferred to a promise callback. Callbacks are opaque here, so the difference cannot be observed.
- ClientModel.Model.StartLiveQuery: when a previous live query is passed, the new one takes its query and methods and ignores anything chained afterwards.
- ClientModel.LiveQuery.Populate: only a successful population is modelled. `onRejection` and a rejected promise are left out. The queue of deltas models the handlers chained on `LQ.promise`. When several executions are outstanding at once (each hook pair's `reconnect` re-runs `exec`), each resolution is one call of `Populate`. The deltas that arrive after the first of them are applied at once, while the source chains them on the latest `LQ.promise`.
- ClientModel.LiveQuery.On: event names are the six reserved ones. `on` and `off` with any other name throw a TypeError in the source (client/moonridge-model.js:182, 192), which the model does not represent.
- LiveQuerySync.Updated: a membership signal is a boolean, a number, another truthy value or another falsy value. Objects and strings are not told apart beyond their truthiness, which is all the handler reads.
- ClientModel.LiveQuery.Stop: it deletes `_LQsByQuery[queryStringified]` even when that entry now names another live query, as the source does. This is stated and not prevented.
- Numbers: `angular.isNumber` also accepts `NaN`, `Infinity` and fractions. Positions and limits here are integers.
- The `LQ.doc` getter, `$log` messages and `onRejection` are not modelled. Neither are the angular factory, `getModel`/`getModels`/`getBackend`, the non-live `query()`, and the RPC wrappers `create`, `update`, `remove` and `listPaths`. They are plumbing or I/O.
- Server `channel.find`, `create`, `remove`, `update` and `populate` are left out; they are store round-trips. So is `notifySubscriber`, which only forwards to the client.
- `unsubscribeAll` is not modelled as an operation. It calls `unsubscribe` as a plain function, so with ids recorded it would fail like the re-subscription in the Findings at its first successful `schema.off`; as written no id is ever recorded, so it finds nothing to remove.
- RpcMethods.Connection.Subscribe: it assumes a `when` library in scope, which mr-rpc-methods.js never requires (see the Findings), and resolves the subscription at once. A stored id of 0 is falsy, so it is not unsubscribed and its `schema` listener stays registered; the schema's listeners are not modelled.
- moonridge.js: `connect`, `bootstrap`, `getHealth`, `baucis`, the `onExistence` hook (an asynchronous foreign call) and the rest of `regNewModel` are left out. They are connection setup and I/O.

## Findings

| source | as written | input that shows it | evidently intended | confidence | as-written member | corrected member |
|---|---|---|---|---|---|---|
| client/moonridge-model.js:163-198 | `off` empties a slot with `delete`, and `_invokeListeners` then calls `.call` on the hole, a TypeError | `on('create', a)`, `on('create', b)`, `off('create', 0)`, then a `create` push | skip emptied slots and call the remaining listeners | high; not executed | ClientModel.InvokeAfterOffThrows | ClientModel.LiveQuery.InvokeListeners |
| mr-rpc-methods.js:113 | `subscribe` calls `when.defer()`, but the file never requires `when` (lines 1-4 require only socket.io-rpc, lodash, ./schema-events and ./mquery-stringify); the ReferenceError comes after the table and the disconnect hook are set up and before `schema.on`, so no id is ever recorded | `sub('update')` on any socket | create the deferred with the promise library, subscribe with `schema.on` and record the id | high; not executed | RpcMethods.SubscribeThrowsWithoutWhen | RpcMethods.Connection.Subscribe |
| mr-rpc-methods.js:108-111 | with a `when` in scope, `subscribe` removes an existing subscription with the plain call `unsubscribe(...)`, whose `this.socket` is undefined; after `schema.off` succeeds, `delete this.socket.mrEventIds[event]` throws | `sub('update')` twice on one socket, with a global `when`, a truthy first id and `schema.off` returning true | delete the old id on this socket, then map the name to the new id | medium, since it needs a global `when`; not executed | RpcMethods.ResubscribeThrows | RpcMethods.Connection.Subscribe |
| mr-rpc-methods.js:155-157 | `liveQuery` calls `subscribeAll(query)` as a plain function, and each `subscribe` it makes reads the undefined `this.socket` and throws | any `liveQuery` request, with a non-empty event-name list | subscribe the requesting socket to every event name, then look up the key | high; not executed | RpcMethods.LiveQuerySubscribeThrows | RpcMethods.Registry.LiveQuery |
