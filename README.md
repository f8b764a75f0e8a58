# Sara.Cache, modelled in Dafny

Sara.Cache is a small .NET caching library. A **cache controller** (`ICacheController` /
`CacheController`) keeps an ordered list of **cache data controllers**. Each of those wraps
one payload (`ICacheData`) and runs that payload's lazy-load state machine:

- `Load` does nothing when the payload is cached. Otherwise it raises *Starting*, calls the
  payload's own `Load`, forwards the payload's progress reports, and raises *Loaded*.
- `Invalidate` clears the cached flag and runs the invalidate subscribers.
- `Clear` calls the payload's `Clear`, then `Invalidate`.
- Reading `Data` loads an uncached payload first.

The cache controller does four things:

- It saves every payload to a data store, and loads the stored payloads back as new entries.
- It broadcasts `Load`, `Clear` and `Invalidate` to all entries, in list order.
- It answers queries by payload type, by key, or by both.
- It routes load-status and invalidate subscriptions to the entries a query selects.
  `SetupLoadNotification` acts on the first selected entry only, and gives it a fresh
  loading key from a process-wide 32-bit counter (`Generator`).
  `SetupInvalidateNotification` acts on every selected entry.

The model is organised as follows.

- `Seqs` holds sequence helpers. It includes the two ways .NET removes an element:
  `List<T>.Remove` removes the first occurrence, and delegate `-=` removes the last.
- `CacheData` holds the payload as a value (key, concrete type, model text, cached flag),
  the loading statuses, the errors, and query selection (`Match`, `Matching`).
- `Entry` holds the per-entry state machine as pure transitions.
  - `LoadStep`, `InvalidateStep` and `ClearStep` each return the entry's new state and the
    ordered list of events the step produces. The events are status notifications raised,
    subscriber calls, and calls into the payload.
  - Lemmas state what the library promises about these steps.
- `DataController` holds the class `CacheDataController`. Its fields are the ones the
  library updates in place. Each method is proved to perform its `Entry` transition, and it
  appends that transition's events to a ghost `trace`.
- `Generator` holds the loading-key counter as a class, with the Int32 wrap-around of
  `Interlocked.Increment` written out.
- `Registry` holds the class `CacheController` and a store class `DataStore`.
  - Every broadcast is a loop over the list, proved to give each controller one step per
    occurrence in the list. The list may hold a controller more than once.
  - `SetupInvalidateNotification` is proved in the same way.
- `Factory` holds `CacheFactory.CreateCacheData`.
- `Scenarios` restates the repository's unit and integration tests. Each test is a method
  that builds fresh objects, and its postconditions are the test's assertions.

Calls into code the model cannot see are parameters.

- A payload's own `Load` is a `PayloadLoad`. It records the progress reports the load
  raises, whether it throws, and whether it sets the payload's own `IsCached` flag before
  returning. `CacheDataController` never writes that flag itself.
- `Sweep.LoadAll(run)` gives the load of every payload, keyed by the payload.
- Subscriber callbacks are opaque identities (`Callback = int`). Their effects are the
  events in the trace.

The interface file `Sara.Cache/ICacheController.cs` states the contracts. The bodies of
`CacheController` and `CacheDataController` come from the `.NET Standard/Sara.NETStandard.Cache`
copies of those classes. Where the interface's comments, the tests and that code disagree,
the model does the following.

- **The `Data` getter loads first.** It follows the tests (`CacheDataController.Test.cs`
  lines 201-219, and the comment at `Integration.Test.cs` line 66). An uncached payload is
  loaded first through `Load()`, that is `Load(false)`: the test counts two calls of the
  parameterless `Load`, one of them the getter's. In the `.NET Standard` copy the getter's
  load is dead code: the commented-out line at `CacheDataController.cs` lines 34-35, guarded
  by `!_isInitializing`, would call `Load(true)`. The model follows the test, whose mock
  expects `Load(false)` (`CacheDataController.Test.cs` line 206).
- **`Invalidate` is synchronous.** The `.NET Standard` `CacheDataController.Invalidate`
  queues its work on the thread pool. The tests assert its effects at once, so the model
  runs that work synchronously.
- **`CacheController.Load` loads every entry.** After appending the stored payloads it calls
  `Load()` on every entry in the list, not only on the new ones, as the code does. Entries
  that are already cached do nothing.
- **The test payload's load succeeds quietly.** `TestCacheData.Load(bool)` throws
  `NotImplementedException`, but the integration tests expect the load to succeed and report
  nothing. The scenarios therefore model the test payload's load as the parameterless
  `TestCacheData.Load`, which only marks it cached (`QuietLoad`).

## Model

| member | source | states |
|---|---|---|
| Seqs.RemoveFirstCount | Sara.Cache/ICacheController.cs:55 | List.Remove takes exactly one copy of the element out of the list (its multiset loses one), and changes nothing when the element is absent; the .NET Standard CacheController.cs lines 126-129 call List.Remove |
| Seqs.RemoveLastCount | Sara.Cache/ICacheController.cs:69-70 | delegate subtraction takes exactly one copy of the callback out of the invocation list, and changes nothing when the callback is absent; the .NET Standard CacheController.cs line 174 unsubscribes with `-=` |
| CacheData.Construct | Sara.Cache/CacheFactory.cs:17 | the parameterless constructor gives a payload of the requested type that is not cached |
| CacheData.Matching | Sara.Cache/ICacheController.cs:84-85 | the positions a type/key/key-and-type query selects: strictly increasing, in range, and a position is listed exactly when the query holds for its payload; the .NET Standard CacheController.cs lines 225-237 filter with Where |
| CacheData.MatchingStartsAtFirstMatch | Sara.Cache/ICacheController.cs:62-70 | the first position selected is the first payload the query holds for; the .NET Standard CacheController.cs lines 149-153 return from the first iteration |
| CacheData.MatchingEmptyIffNoMatch | Sara.Cache/ICacheController.cs:84-85 | nothing is selected exactly when no payload matches; the basis of EmptyByType and EmptyByTypeAndKey in the .NET Standard CacheController.cs lines 16-26 |
| Generator.Advance | Sara.Cache/Generator.cs:7-9 | the counter after n increments is still a 32-bit int |
| Generator.IssuedCountsUp | Sara.Cache/Generator.cs:9 | until Int32.MaxValue is reached, the i-th key handed out is start + 1 + i |
| Generator.IssuedStrictlyIncreasing | Sara.Cache/Generator.cs:9 | below 2^31-1 calls the keys are strictly increasing, so no key is handed out twice, and the first key after start-up is 1 |
| Generator.LoadingKeyGenerator.constructor | Sara.Cache/Generator.cs:7 | the static counter starts at 0 with no key issued |
| Generator.LoadingKeyGenerator.GetNextLoadingKey | Sara.Cache/Generator.cs:9 | the key is the incremented counter (wrapping from Int32.MaxValue to Int32.MinValue) and is stored as the new value; the issued keys keep the counting-up invariant |
| Entry.LoadWhenCachedDoesNothing | Sara.Cache.Test/CacheDataController.Test.cs:50-62 | a load of a cached entry changes nothing, raises nothing and succeeds; the .NET Standard CacheDataController.cs line 112 returns early |
| Entry.LoadCallsPayloadOnce | Sara.Cache.Test/CacheDataController.Test.cs:31-43 | an uncached load calls the payload's Load exactly once with the given flag, never Clear or an invalidate subscriber; when that call returns the cached flag is the one the payload's load set, and on a throw the failure propagates with the entry unchanged; the .NET Standard CacheDataController.cs lines 106-127 |
| Entry.LoadRaisesStartingProgressLoaded | Sara.Cache.Test/CacheDataController.Test.cs:105-135 | the statuses raised are Starting, then each progress report of the payload, then Loaded unless the payload's load threw; the .NET Standard CacheDataController.cs lines 118-120 |
| Entry.LoadOrdersStartPayloadLoaded | Sara.Cache.Test/Integration.Test.cs:104-136 | the Starting notification comes first, the payload call comes right after its fan-out, and on success the Loaded notification is the last one raised; the .NET Standard CacheDataController.cs lines 118-120 |
| Entry.LoadDeliversToEverySubscription | Sara.Cache.Test/Integration.Test.cs:111-136 | a callback subscribed k times hears every raised status k times, in order; one never subscribed hears nothing; the .NET Standard CacheDataController.cs lines 149-153 |
| Entry.LoadDeliveriesCarryLoadingKey | Sara.Cache/ICacheController.cs:68 | every delivery carries the entry's LoadingKey, the key that identifies the load to its subscribers |
| Entry.InvalidateFiresEverySubscriber | Sara.Cache.Test/CacheDataController.Test.cs:168-195 | Invalidate clears only the cached flag and runs each invalidate subscriber once, in order, with no load, no Clear and no status; the .NET Standard CacheDataController.cs lines 77-84 |
| Entry.ClearCallsPayloadClearOnce | Sara.Cache.Test/CacheDataController.Test.cs:144-159 | Clear calls the payload's Clear exactly once, leaves the entry uncached, runs every invalidate subscriber and does not load; the .NET Standard CacheDataController.cs lines 50-54 |
| Entry.InvalidateAgain | Sara.Cache/ICacheController.cs:44-47 | invalidating again from the invalidated state repeats the same transition (what a duplicated list entry receives) |
| Entry.ClearAgain | Sara.Cache/ICacheController.cs:38-42 | clearing again from the cleared state repeats the same transition |
| Entry.LoadAgain | Sara.Cache.Test/CacheDataController.Test.cs:50-62 | a load that leaves the entry cached succeeded, and a further load is a no-op; a load that leaves it uncached (it threw, or the payload did not mark itself cached) leaves the entry unchanged, so a further load repeats it |
| Entry.LoadTwiceCallsPayloadOnce | Sara.Cache.Test/CacheDataController.Test.cs:50-62 | when the payload's load marks it cached, two loads in a row call the payload's Load once, and the entry stays cached |
| Entry.LoadTwiceWithoutMarkCallsPayloadTwice | Sara.Cache.Test/CacheDataController.Test.cs:54-55 | the cached flag is set by the payload's own Load, as the test's mock does, so when that load throws or does not set it the entry is left as it was and a second load calls the payload's Load again; the .NET Standard CacheDataController.cs lines 112-120 never write the flag |
| Entry.OneProgressReportMakesThreeNotifications | Sara.Cache.Test/CacheDataController.Test.cs:105-135 | a payload reporting one Loading message makes exactly three status notifications: Starting, Loading, Loaded |
| Entry.SubscriberHearsStartingThenLoaded | Sara.Cache.Test/Integration.Test.cs:130-136 | a callback subscribed once hears exactly Starting then Loaded: two notifications |
| Entry.RemovedSubscriberHearsNothing | Sara.Cache.Test/Integration.Test.cs:138-143 | after the callback is removed, a later load delivers nothing to it |
| Entry.InvalidatedReadForcesLoad | Sara.Cache.Test/CacheDataController.Test.cs:201-219 | Load, Invalidate, then reading Data, with a payload that marks itself cached: uncached after Invalidate, cached after the read, and the payload's Load(false) has run twice, the second time through the getter's Load() |
| Entry.AsWrittenRemoveKeepsInvalidateSubscriber | Sara.Cache/ICacheController.cs:82-83 | as written, Remove after Add leaves the callback subscribed (the .NET Standard CacheController.cs lines 200-201 and 217-218) |
| Entry.RemoveUndoesAddInvalidateSubscriber | Sara.Cache/ICacheController.cs:82-83 | corrected, Remove undoes Add and the invalidate subscriber list is back to what it was |
| DataController.CacheDataController.constructor | Sara.Cache/CacheFactory.cs:18-19 | a new controller initialised with a payload wraps it, with loading key 0, no subscribers and nothing raised |
| DataController.CacheDataController.Initialize | Sara.Cache.Test/CacheDataController.Test.cs:15-23 | the controller wraps the new payload and keeps everything else |
| DataController.CacheDataController.WriteModel | Sara.Cache.Test/Integration.Test.cs:97 | writing Model through the returned payload changes only the model text |
| DataController.CacheDataController.Load | Sara.Cache.Test/CacheDataController.Test.cs:31-43 | the new state, the events appended to the trace and the outcome are exactly those of LoadStep; the .NET Standard CacheDataController.cs lines 102-127 |
| DataController.CacheDataController.LoadWithCallback | Sara.Cache.Test/CacheDataController.Test.cs:71-95 | Load(false), then the callback runs exactly when the load returned normally; the .NET Standard CacheDataController.cs lines 129-140 |
| DataController.CacheDataController.Invalidate | Sara.Cache.Test/CacheDataController.Test.cs:168-195 | performs InvalidateStep; the .NET Standard CacheDataController.cs lines 77-84 |
| DataController.CacheDataController.Clear | Sara.Cache.Test/CacheDataController.Test.cs:144-159 | performs ClearStep; the .NET Standard CacheDataController.cs lines 50-54 |
| DataController.CacheDataController.Data | Sara.Cache.Test/CacheDataController.Test.cs:212-218 | the getter performs LoadStep with internalLoad false (the getter's Load() is the second of the two Load() calls the test counts) and returns the payload, or the error of a load that threw |
| DataController.CacheDataController.SetLoadingKey | Sara.Cache/ICacheController.cs:68 | only the loading key changes |
| DataController.CacheDataController.SubscribeLoadStatus | Sara.Cache/ICacheController.cs:62-70 | the callback is appended to the load-status invocation list |
| DataController.CacheDataController.UnsubscribeLoadStatus | Sara.Cache.Test/Integration.Test.cs:138-143 | the callback's last occurrence leaves the load-status invocation list |
| DataController.CacheDataController.SetupInvalidateSubscription | Sara.Cache/ICacheController.cs:82-83 | one Add or Remove on the invalidate invocation list, with Remove corrected |
| Registry.Where | Sara.Cache/ICacheController.cs:84-85 | the selected controllers, in list order: those at the positions Matching lists |
| Registry.WhereAppend | Sara.Cache/ICacheController.cs:54 | registering one more controller extends a query's result by it exactly when the query selects its payload |
| Registry.Sweep.OneMore | Sara.Cache/ICacheController.cs:26-47 | one more Clear/Invalidate/Load on an entry reached again in the list continues from the state the first call left, adds the events the model predicts, and has the first call's outcome |
| Registry.DataStore.Save | Sara.Cache/DataStore/MemoryCacheDataStore.cs:8-11 | the stored content becomes the given payloads |
| Registry.CacheController.constructor | Sara.Cache/ICacheController.cs:17 | an empty list and no data store; the .NET Standard CacheController.cs lines 29-34 |
| Registry.CacheController.Empty | Sara.Cache/ICacheController.cs:19-22 | "no data in the cache": true exactly when no query by type, by key or by both selects any controller |
| Registry.CacheController.NoEntryIffNoQuerySelects | Sara.Cache/ICacheController.cs:19-22 | the list holds no controller exactly when every query comes back empty, so the `Cache.Count == 0` test of the .NET Standard CacheController.cs line 11 agrees with the interface's "no data" |
| Registry.CacheController.GetData | Sara.Cache/ICacheController.cs:84-85 | the controllers whose payload the query selects, in list order |
| Registry.CacheController.EmptyByType | Sara.Cache/ICacheController.cs:84-85 | true exactly when no payload has the type, the same as GetData by type returning nothing; the .NET Standard CacheController.cs lines 16-19 |
| Registry.CacheController.EmptyByTypeAndKey | Sara.Cache/ICacheController.cs:84-85 | true exactly when no payload has both the type and the key, the same as the key-and-type GetData returning nothing; the .NET Standard CacheController.cs lines 23-26 |
| Registry.CacheController.FirstMatch | Sara.Cache/ICacheController.cs:62-80 | the position of the first selected controller, or none exactly when no payload is selected; the .NET Standard CacheController.cs lines 149-153 and 184-188 |
| Registry.CacheController.FirstMatchHeadsGetData | Sara.Cache.Test/Integration.Test.cs:59-61 | the controller SetupLoadNotification acts on is the first one GetData returns |
| Registry.CacheController.NoMatchEmptiesGetData | Sara.Cache/ICacheController.cs:72-80 | SetupLoadNotification finds no controller exactly when GetData returns nothing |
| Registry.CacheController.Add | Sara.Cache/ICacheController.cs:54 | the controller is appended and nothing else changes |
| Registry.CacheController.Remove | Sara.Cache/ICacheController.cs:55 | the controller's first occurrence leaves the list and nothing else changes |
| Registry.CacheController.SetupDataStore | Sara.Cache/ICacheController.cs:57-60 | binds the store and changes nothing else |
| Registry.CacheController.Save | Sara.Cache/ICacheController.cs:24 | without a store, a configuration error; otherwise the store holds every payload in list order; the .NET Standard CacheController.cs lines 36-48 |
| Registry.CacheController.AppendFromStore | Sara.Cache/ICacheController.cs:26-30 | every stored payload, in order, is appended as a new, distinct controller with loading key 0 and no subscribers, and the existing list is kept as its prefix; the .NET Standard CacheController.cs lines 62-71 |
| Registry.CacheController.StepOne | Sara.Cache/ICacheController.cs:26-47 | the per-controller call inside a broadcast: the controller's new state, appended events and outcome are exactly those of one Clear, Invalidate or Load(false) step; the calls cacheDataController.Load(), Clear() and Invalidate() in the foreach loops of the .NET Standard CacheController.cs lines 56-59, 102-105 and 110-113 |
| Registry.CacheController.StepEntry | Sara.Cache/ICacheController.cs:26-47 | the loop body of a broadcast: the controller at the position takes one step and the per-controller count invariant moves past it |
| Registry.CacheController.SweepLoop | Sara.Cache/ICacheController.cs:26-47 | the foreach of a broadcast: every controller takes one step per occurrence in the visited prefix, the number of successes is counted, and with stop-on-failure the first failing step ends the loop with its error; the foreach loops of the .NET Standard CacheController.cs lines 56-59, 102-105 and 110-113 |
| Registry.CacheController.RunSweep | Sara.Cache/ICacheController.cs:26-47 | a broadcast measured from the state before it: each controller's new state and trace are those of one step per occurrence in the visited prefix |
| Registry.CacheController.Clear | Sara.Cache/ICacheController.cs:38-42 | every controller performs ClearStep once per occurrence in the list, and its events repeat that many times; the .NET Standard CacheController.cs lines 100-106 |
| Registry.CacheController.Invalidate | Sara.Cache/ICacheController.cs:44-47 | every controller performs InvalidateStep once per occurrence in the list; the .NET Standard CacheController.cs lines 108-114 |
| Registry.CacheController.LoadFromStore | Sara.Cache/ICacheController.cs:26-36 | the stored payloads are appended, then every controller, old and new, loads once per occurrence in the visited prefix, starting from its state before the loads |
| Registry.CacheController.Load | Sara.Cache/ICacheController.cs:26-30 | without a store, a configuration error and nothing changes; otherwise the stored payloads are appended and every controller is loaded in order, the first load that throws ending the operation with its error; the .NET Standard CacheController.cs lines 50-60 |
| Registry.CacheController.LoadWithCallback | Sara.Cache/ICacheController.cs:32-36 | the stored payloads are appended and every controller is loaded, a load that throws being reported as a failure while the others still load; the callback runs once exactly when every load returned normally, and never without a store (both failure cases differ from the code, see Left out); the .NET Standard CacheController.cs lines 72-98 |
| Registry.CacheController.SetupLoadNotification | Sara.Cache/ICacheController.cs:62-80 | acts on the first selected controller only. Add gives it the next loading key, subscribes the callback and returns that key. Remove takes the callback's last subscription off and returns nothing. With no selected controller nothing changes. No trace changes; the .NET Standard CacheController.cs lines 147-189 |
| Registry.CacheController.SetupEntryLoadNotification | Sara.Cache/ICacheController.cs:62-70 | the Add and Remove cases on one controller, with the generator's invariant kept; the .NET Standard CacheController.cs lines 163-180 |
| Registry.CacheController.SetupInvalidateNotification | Sara.Cache/ICacheController.cs:82-83 | every selected controller has the action applied once per occurrence in the list; unselected controllers and every trace are unchanged; the loop of the .NET Standard CacheController.cs lines 191-223 |
| Registry.CacheController.SubscribeIfSelected | Sara.Cache/ICacheController.cs:82-83 | one visit of the loop body: a selected controller gets the Add or the corrected Remove on its invalidate list, an unselected one is left alone, and no trace changes; the switch bodies of the .NET Standard CacheController.cs lines 195-204 and 212-221 |
| Registry.CacheController.VisitAll | Sara.Cache/ICacheController.cs:82-83 | the loop over every position: afterwards each controller is in the state the visits predict and every trace is unchanged; the foreach loops of the .NET Standard CacheController.cs lines 193-205 and 210-222 |
| Registry.VisitedAll | Sara.Cache/ICacheController.cs:82-83 | after the loop has visited every position, each controller's state is its starting state with the action applied as many times as the controller occurs |
| Registry.IterateSubscribes | Sara.Cache/ICacheController.cs:82-83 | k visits, one at a time, give the state in which the action has been applied k times to a selected controller and never to an unselected one |
| Factory.CreateCacheData | Sara.Cache/CacheFactory.cs:15-22 | a new controller wrapping a freshly constructed payload of the type, with loading key 0 and no subscribers, appended once to the registry and returned |
| Scenarios.PrepareCache | Sara.Cache.Test/Integration.Test.cs:87-102 | the prepared registry holds the one factory-made controller, bound to the store; its payload carries the model text and is uncached again |
| Scenarios.LoadThenReadFirst | Sara.Cache.Test/CacheController.Test.cs:52-63 | Load from a store holding one payload, then a read of the first entry's Data, returns that payload, loaded |
| Scenarios.SaveAndReload | Sara.Cache.Test/Integration.Test.cs:70-85 | Save then Load into a second registry returns the payload with the same type and model text |
| Scenarios.AddThenRemove | Sara.Cache.Test/CacheController.Test.cs:220-231 | the list holds one controller after Add and none after Remove |
| Scenarios.GetDataByTypeAndByKey | Sara.Cache.Test/CacheController.Test.cs:95-127 | GetData by type and by key both return the one entry, with its model text |
| Scenarios.FirstLoadingKey | Sara.Cache/Generator.cs:7-9 | the first Add after start-up returns loading key 1 and gives it to the entry |
| Scenarios.SubscribedByType | Sara.Cache.Test/Integration.Test.cs:130-131 | after the subscription by type the entry has loading key 1 and the callback as its only load subscriber |
| Scenarios.LoadNotifiesSubscriber | Sara.Cache.Test/Integration.Test.cs:130-136 | the subscribed callback hears exactly Starting then Loaded |
| Scenarios.LoadedThenUnsubscribed | Sara.Cache.Test/Integration.Test.cs:138 | after Remove by type the loaded entry has no load subscriber left |
| Scenarios.SecondLoadAfterRemoveIsSilent | Sara.Cache.Test/Integration.Test.cs:138-145 | the test's second Load after Remove finds the entry still cached: it calls nothing and the callback hears nothing; the closing Invalidate leaves the entry uncached |
| Scenarios.RemovedSubscriberHearsNothingOnReload | Sara.Cache.Test/Integration.Test.cs:138-143 | stronger than the test, which reloads a cached entry: with an Invalidate inserted before the reload, the payload's Load does run once after Remove and the callback still hears nothing |
| Scenarios.ClearCallsPayloadClear | Sara.Cache.Test/CacheController.Test.cs:198-208 | on a registry holding one added entry that was never loaded, registry Clear reaches that entry's Clear exactly once, and the entry is left uncached |
| Scenarios.InvalidateSubscribedByType | Sara.Cache.Test/Integration.Test.cs:47-49 | after the invalidate subscription by type, the callback is the entry's only invalidate subscriber |
| Scenarios.InvalidateNotifiesSubscriber | Sara.Cache.Test/Integration.Test.cs:45-53 | registry Invalidate runs the subscribed callback exactly once and leaves the entry uncached |
| Scenarios.ReadAfterInvalidateLoads | Sara.Cache.Test/Integration.Test.cs:55-67 | reading Data of the first entry GetData returns forces a load that the subscribed callback hears (Starting, then Loaded), and yields the model text |

## Left out

- Threads, locks and the thread pool. `LoadWithCallback`, both on the cache controller and
  on each entry, and the entry's `Invalidate` run synchronously, in list order. The
  `lock (callback)` counter and the wait loop become the count of successful loads.
- The `_isLoading` single-flight flag of `CacheDataController.Load`. Only a concurrent or
  re-entrant caller can observe it.
- The cache controller's `LoadWithCallback` when a load throws. In the code the exception
  escapes a thread-pool work item that has no handler, which ends the process. The model
  reports that case as `Failed(PayloadLoadError)` and does not run the callback.
- Registry.CacheController.LoadWithCallback: with no data store bound, the model returns
  `Failed(ConfigurationError)` and changes nothing. The code has no such check: its pool
  thread dereferences the null store.
- XML serialization, `XMLCacheDataStore`, and type resolution by assembly-qualified name.
  A data store holds payload values, and both saving and loading them are exact.
- `InvalidateNotification` has no modelled effect: in the code it only throws
  `NotImplementedException`.
- `InvalidatePart`, which only raises the invalidate event, is not modelled. The core's
  operations never call it.
- The `ArgumentOutOfRangeException` default branches. C# lets a caller pass a value outside
  the enum, such as `(CacheNotificationAction)2`, and that value reaches them. The model's
  `CacheNotificationAction` datatype has only `Add` and `Remove`, so it excludes such values.
- Null values. A null payload, a null data store passed to the store's own methods, and
  null keys are not modelled. A null string is written as `""`.
- The payload's back pointer (`DataController`) and the wiring of its own status event to
  the entry. The progress a payload reports during its load is an input
  (`PayloadLoad.progress`).
- Entry.ClearStep: the payload's own `Clear` is taken to change none of the payload's fields
  (key, type, model text, cached flag). A payload whose `Clear` resets its data is not
  captured, because those bodies belong to each payload's own code.
- A payload `Clear` that throws. `TestCacheData.Clear` throws `NotImplementedException`,
  but the Clear test uses a mock payload whose `Clear` returns.
- Each payload's own `Load` is fixed by the payload's value (`LoadAll(run)`). Two
  identical payloads therefore always load the same way.
- Registry.CacheController.SetupInvalidateNotification: for `Remove` the model applies the
  corrected behaviour (see Findings), not the no-op the code has.
- Generator.IssuedStrictlyIncreasing: uniqueness of loading keys is proved only below
  2^31-1 calls. After 2^31-1 calls the counter wraps to Int32.MinValue, so the keys stop
  increasing; a key first repeats only after 2^32 calls, which the model does not state.

## Findings

| source | as written | input that shows it | evidently intended | confidence | as-written member | corrected member |
|---|---|---|---|---|---|---|
| Sara.Cache/ICacheController.cs:82-83 | in the .NET Standard implementation of these two methods (CacheController.cs lines 200-201 and 217-218) the `Remove` case only breaks, so the callback stays subscribed | Add then Remove of the same callback on an entry whose invalidate list is empty: after the Remove the list is still `[callback]` | `Remove` takes the callback off that entry's invalidate event (`-=`), as `SetupLoadNotification` does for load events | not executed | Entry.AsWrittenRemoveKeepsInvalidateSubscriber | Entry.RemoveUndoesAddInvalidateSubscriber |
