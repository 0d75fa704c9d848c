/** The pre-middleware of src/resource/middleware/caching.ts: the cache is
    consulted and filled by url, never by resource name. */
module Caching {
  import opened Wrappers
  import opened Messaging
  import opened ResourceCache

  /** One run of the closure `caching(manager)` on a resource; returning is
      its single `next()` call, made on both branches. On a hit the data
      comes from the cached entry and the resource completes (firing any
      store handlers it already carries); on a miss one more store handler
      is registered and nothing else changes. */
  method Run(manager: ResourceManager, r: LoaderResource)
    modifies r`data, r`complete, r`loading, r`storeHandlers, manager`cache, manager.bus
    ensures old(r.url in manager.cache) ==>
      r.data == old(manager.cache[r.url].data) && r.complete && !r.loading && r.storeHandlers == 0
      && manager.cache == (if old(r.storeHandlers) > 0 then old(manager.cache)[r.url := r] else old(manager.cache))
      && manager.bus.log == old(manager.bus.log) + Repeat(ResourceAdded(r.url, r.id), old(r.storeHandlers))
    ensures old(r.url !in manager.cache) ==>
      r.storeHandlers == old(r.storeHandlers) + 1
      && r.data == old(r.data) && r.complete == old(r.complete) && r.loading == old(r.loading)
      && manager.cache == old(manager.cache) && manager.bus.log == old(manager.bus.log)
  {
    if manager.Has(r.url) {
      var cached := manager.Get(r.url);
      r.data := cached.value.data;
      r.Complete(manager);
    } else {
      r.storeHandlers := r.storeHandlers + 1;
    }
  }
}
