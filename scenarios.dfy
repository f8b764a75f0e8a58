/** The repository's unit and integration tests: each builds fresh objects, and its
    postconditions are the test's assertions. A test payload's own load reports nothing
    and returns normally. */
module Scenarios {
  import opened CacheData
  import opened Entry
  import opened Seqs
  import opened DataController
  import opened Registry
  import opened Factory
  import Generator

  /** The concrete type of the test payload. */
  const TestType: TypeTag := "Sara.Cache.Test.TestCacheData"

  /** The test payload's Load: no progress report, no exception, and the payload marks
      itself cached. */
  const QuietLoad := PayloadLoad([], false, true)

  /** A registry bound to an empty memory store holding one entry created through the
      factory, read once (which loads it), given its model text and invalidated again. */
  method PrepareCache(model: string) returns (cache: CacheController, store: DataStore, data: CacheDataController)
    ensures fresh(cache) && fresh(store) && fresh(data)
    ensures cache.cache == [data] && cache.dataStore == store
    ensures data.State() == EntryState(Payload("", TestType, model, false), 0, [], [])
  {
    cache := new CacheController();
    store := new DataStore([]);
    cache.SetupDataStore(store);
    data := CreateCacheData(cache, TestType);
    var _ := data.Data(QuietLoad);
    data.WriteModel(model);
    assert data.payload == Payload("", TestType, model, true);
    cache.Invalidate();
    assert multiset(cache.cache)[data] == 1;
  }

  /** Load into a new registry bound to a store holding one payload, then read the first
      entry's Data: the stored payload comes back, loaded. */
  method LoadThenReadFirst(content: seq<Payload>) returns (loaded: Result<Payload>)
    requires |content| == 1 && !content[0].isCached
    ensures loaded == Success(content[0].(isCached := true))
  {
    var cache := new CacheController();
    var store := new DataStore(content);
    cache.SetupDataStore(store);
    var _, _, reached, starts, traces0 := cache.Load(p => QuietLoad);
    assert |cache.cache| == 1 && starts[0].payload == content[0];
    assert Stepped(cache.cache[0], LoadAll(p => QuietLoad), starts[0], traces0[0], multiset(cache.cache[..reached])[cache.cache[0]]);
    loaded := cache.cache[0].Data(QuietLoad);
  }

  /** Save then Load into a second registry: the prepared payload comes back from a second
      registry bound to a copy of the stored content with the same type and model text,
      now loaded. */
  method SaveAndReload(model: string) returns (reloaded: Result<Payload>)
    ensures reloaded == Success(Payload("", TestType, model, true))
  {
    var cache, store, data := PrepareCache(model);
    var _ := cache.Save();
    assert store.storage == [Payload("", TestType, model, false)];
    reloaded := LoadThenReadFirst(store.storage);
  }

  /** Add then Remove: the registry holds one entry, then none. */
  method AddThenRemove() returns (afterAdd: nat, afterRemove: nat)
    ensures afterAdd == 1 && afterRemove == 0
  {
    var cache := new CacheController();
    var data := new CacheDataController(Construct(TestType));
    cache.Add(data);
    afterAdd := |cache.cache|;
    cache.Remove(data);
    afterRemove := |cache.cache|;
  }

  /** GetData by type and by key on a registry holding one keyed test payload: both
      return that entry, with the model text it was given. */
  method GetDataByTypeAndByKey(key: string, model: string) returns (byType: Payload, byKey: Payload)
    ensures byType == Payload(key, TestType, model, false) && byKey == byType
  {
    var cache := new CacheController();
    var data := new CacheDataController(Payload(key, TestType, model, false));
    cache.Add(data);
    cache.FirstMatchHeadsGetData(ByType(TestType), 0);
    cache.FirstMatchHeadsGetData(ByKey(key), 0);
    byType := cache.GetData(ByType(TestType))[0].payload;
    byKey := cache.GetData(ByKey(key))[0].payload;
  }

  /** The first Add through SetupLoadNotification after start-up hands out loading key 1
      and gives it to the selected entry. */
  method FirstLoadingKey() returns (key: Option<int>, entryKey: int)
    ensures key == Some(1) && entryKey == 1
  {
    var keys := new Generator.LoadingKeyGenerator();
    var cache := new CacheController();
    var data := CreateCacheData(cache, TestType);
    assert cache.cache == [data] && ByType(TestType).Holds(cache.cache[0].payload);
    var position;
    key, position := cache.SetupLoadNotification(ByType(TestType), Add, 7, keys);
    assert position == Some(0);
    entryKey := data.loadingKey;
  }

  /** A registry holding one entry created through the factory, with `cb` subscribed to
      its load notifications by type right after start-up. */
  method SubscribedByType(cb: Callback)
    returns (cache: CacheController, keys: Generator.LoadingKeyGenerator, data: CacheDataController, key: Option<int>)
    ensures fresh(cache) && fresh(keys) && fresh(data)
    ensures cache.cache == [data] && keys.Valid()
    ensures data.State() == EntryState(Construct(TestType), 1, [cb], []) && data.trace == []
    ensures key == Some(1)
  {
    keys := new Generator.LoadingKeyGenerator();
    cache := new CacheController();
    data := CreateCacheData(cache, TestType);
    assert cache.cache == [data] && ByType(TestType).Holds(cache.cache[0].payload);
    var position;
    key, position := cache.SetupLoadNotification(ByType(TestType), Add, cb, keys);
    assert position == Some(0);
  }

  /** A callback subscribed by type hears Starting then Loaded when the entry loads. */
  method LoadNotifiesSubscriber(cb: Callback) returns (key: Option<int>, ghost heard: seq<LoadingStatus>)
    ensures key == Some(1) && heard == [Starting, Loaded]
  {
    var cache, keys, data;
    cache, keys, data, key := SubscribedByType(cb);
    ghost var s1, t1 := data.State(), data.trace;
    var _ := data.Load(false, QuietLoad);
    SubscriberHearsStartingThenLoaded(s1, false, QuietLoad, cb);
    heard := HeardBy(data.trace[|t1|..], cb);
  }

  /** The subscribed entry after one load, once SetupLoadNotification has removed `cb` by
      type: loaded, with loading key 1 and no load subscriber left. */
  method LoadedThenUnsubscribed(cb: Callback) returns (cache: CacheController, data: CacheDataController)
    ensures fresh(cache) && fresh(data) && cache.cache == [data]
    ensures data.State() == EntryState(Construct(TestType).(isCached := true), 1, [], [])
  {
    var keys, key;
    cache, keys, data, key := SubscribedByType(cb);
    var _ := data.Load(false, QuietLoad);
    assert cache.cache == [data] && ByType(TestType).Holds(cache.cache[0].payload);
    var _, position := cache.SetupLoadNotification(ByType(TestType), Remove, cb, keys);
    assert position == Some(0);
    assert multiset(data.loadSubscribers) == multiset{};
  }

  /** The test's second Load after the callback is removed finds the entry still cached, so
      it does nothing and the callback hears nothing; the test's closing Invalidate then
      leaves the entry uncached. */
  method SecondLoadAfterRemoveIsSilent(cb: Callback) returns (ghost heard: seq<LoadingStatus>, ghost loads: seq<bool>, cachedAfter: bool)
    ensures heard == [] && loads == [] && !cachedAfter
  {
    var cache, data := LoadedThenUnsubscribed(cb);
    ghost var s1, t1 := data.State(), data.trace;
    var _ := data.Load(false, QuietLoad);
    LoadWhenCachedDoesNothing(s1, false, QuietLoad);
    heard := HeardBy(data.trace[|t1|..], cb);
    loads := PayloadLoads(data.trace[|t1|..]);
    assert multiset(cache.cache)[data] == 1;
    cache.Invalidate();
    cachedAfter := data.IsCached();
  }

  /** A stronger case than the test's: once removed by type, the callback hears nothing even
      from a load that does run, because an Invalidate has made the entry uncached first. */
  method RemovedSubscriberHearsNothingOnReload(cb: Callback) returns (ghost heard: seq<LoadingStatus>, ghost loads: seq<bool>)
    ensures heard == [] && loads == [false]
  {
    var cache, data := LoadedThenUnsubscribed(cb);
    assert multiset(cache.cache)[data] == 1;
    cache.Invalidate();
    ghost var s2, t2 := data.State(), data.trace;
    var _ := data.Load(false, QuietLoad);
    LoadDeliversToEverySubscription(s2, false, QuietLoad, cb);
    ZeroSpread(RaisedStatuses(LoadStep(s2, false, QuietLoad).events));
    LoadCallsPayloadOnce(s2, false, QuietLoad);
    heard := HeardBy(data.trace[|t2|..], cb);
    loads := PayloadLoads(data.trace[|t2|..]);
  }

  /** Clear on a registry holding one added entry, initialised with a fresh payload and never
      loaded, calls that payload's Clear exactly once and leaves the entry uncached. */
  method ClearCallsPayloadClear() returns (ghost clears: nat, cachedAfter: bool)
    ensures clears == 1 && !cachedAfter
  {
    var cache := new CacheController();
    var data := new CacheDataController(Construct(TestType));
    cache.Add(data);
    ghost var s0, t0 := data.State(), data.trace;
    assert cache.cache == [data] && multiset(cache.cache)[data] == 1;
    assert Repeated(ClearStep(s0).events, 1) == ClearStep(s0).events;
    cache.Clear();
    ClearCallsPayloadClearOnce(s0);
    assert data.trace[|t0|..] == ClearStep(s0).events;
    clears := PayloadClears(data.trace[|t0|..]);
    cachedAfter := data.IsCached();
  }

  /** A registry holding one loaded entry created through the factory, with `cb`
      subscribed to its invalidate notifications by type. */
  method InvalidateSubscribedByType(cb: Callback) returns (cache: CacheController, data: CacheDataController)
    ensures fresh(cache) && fresh(data) && cache.cache == [data]
    ensures data.State() == EntryState(Construct(TestType).(isCached := true), 0, [], [cb])
  {
    cache := new CacheController();
    data := CreateCacheData(cache, TestType);
    var _ := data.Load(false, QuietLoad);
    assert cache.cache == [data] && multiset(cache.cache)[data] == 1;
    assert data.invalidateSubscribers == [] && ByType(TestType).Holds(data.payload);
    assert InvalidateSubscriptionTimes([], Add, cb, 1) == [cb];
    cache.SetupInvalidateNotification(ByType(TestType), Add, cb);
  }

  /** An invalidate callback subscribed by type runs once when the registry is invalidated,
      and the entry is left uncached. */
  method InvalidateNotifiesSubscriber(cb: Callback) returns (ghost fired: seq<Callback>, cachedAfter: bool)
    ensures fired == [cb] && !cachedAfter
  {
    var cache, data := InvalidateSubscribedByType(cb);
    ghost var s0, t0 := data.State(), data.trace;
    assert multiset(cache.cache)[data] == 1;
    assert Repeated(InvalidateStep(s0).events, 1) == InvalidateStep(s0).events;
    cache.Invalidate();
    InvalidateFiresEverySubscriber(s0, cb);
    assert data.trace[|t0|..] == InvalidateStep(s0).events;
    fired := Fired(data.trace[|t0|..]);
    cachedAfter := data.IsCached();
  }

  /** After the prepared registry was invalidated, a load callback subscribed by type and
      the first entry GetData returns: reading its Data forces a load, which the callback
      hears, and yields the payload with its model text. */
  method ReadAfterInvalidateLoads(model: string, cb: Callback) returns (r: Result<Payload>, ghost heard: seq<LoadingStatus>)
    ensures r == Success(Payload("", TestType, model, true))
    ensures heard == [Starting, Loaded]
  {
    var cache, store, data := PrepareCache(model);
    var keys := new Generator.LoadingKeyGenerator();
    assert cache.cache == [data] && ByType(TestType).Holds(cache.cache[0].payload);
    var _, position := cache.SetupLoadNotification(ByType(TestType), Add, cb, keys);
    assert position == Some(0) && data.loadSubscribers == [cb] && !data.payload.isCached;
    cache.FirstMatchHeadsGetData(ByType(TestType), 0);
    var first := cache.GetData(ByType(TestType))[0];
    assert first == data;
    ghost var s0, t0 := first.State(), first.trace;
    r := first.Data(QuietLoad);
    SubscriberHearsStartingThenLoaded(s0, false, QuietLoad, cb);
    heard := HeardBy(first.trace[|t0|..], cb);
  }
}
