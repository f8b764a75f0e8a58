/** CacheFactory: builds an entry for a payload type and registers it with a controller. */
module Factory {
  import opened CacheData
  import opened Entry
  import opened DataController
  import opened Registry

  /** CreateCacheData(controller, type): a payload of the type is built by its parameterless
      constructor, wrapped in a new entry controller (loading key 0, no subscribers) which
      is added to the registry once and returned. */
  method CreateCacheData(controller: CacheController, tag: TypeTag) returns (dc: CacheDataController)
    modifies controller
    ensures fresh(dc)
    ensures dc.State() == EntryState(Construct(tag), 0, [], []) && dc.trace == []
    ensures controller.cache == old(controller.cache) + [dc]
    ensures controller.dataStore == old(controller.dataStore) && controller.completed == old(controller.completed)
  {
    var data := Construct(tag);
    dc := new CacheDataController(data);
    controller.Add(dc);
  }
}
