/** The resource cache of src/resource/ResourceManager.ts, and the parts
    of the (external) `LoaderResource` objects that the loader and the
    cache use. A resource is an object: the loader's table, a parent's
    children, the load queue and the cache all hold the same object. */
module ResourceCache {
  import opened Wrappers
  import opened Messaging

  /** The loaded payload of a resource. */
  type Payload = nat

  /** The state of a `LoaderResource` that the loader and the caching
      middleware read and write. `storeHandlers` counts the one-shot
      `onComplete` handlers the caching middleware registered (each adds
      the resource to the cache under its url); `loadBound` is the
      loader's `_onLoadBinding` on the same signal, registered after them. */
  class LoaderResource {
    const id: ResourceId
    const name: string
    const url: string
    var chunk: real
    var children: seq<LoaderResource>
    var complete: bool
    var loading: bool
    var aborted: bool
    var error: bool
    var data: Option<Payload>
    var storeHandlers: nat
    var loadBound: bool
    /** The `add` callback, registered once on `onAfterMiddleware`. */
    var afterCallback: bool

    constructor(id: ResourceId, name: string, url: string, afterCallback: bool)
      ensures this.id == id && this.name == name && this.url == url
      ensures chunk == 0.0 && children == [] && !complete && !loading && !aborted && !error
      ensures data == None && storeHandlers == 0 && !loadBound && this.afterCallback == afterCallback
    {
      this.id := id;
      this.name := name;
      this.url := url;
      chunk := 0.0;
      children := [];
      complete := false;
      loading := false;
      aborted := false;
      error := false;
      data := None;
      storeHandlers := 0;
      loadBound := false;
      this.afterCallback := afterCallback;
    }

    /** `complete()`: the resource is finished and the caching handlers on
        `onComplete` fire, in registration order, each storing it in the
        cache under its url. */
    method Complete(manager: ResourceManager)
      modifies this`complete, this`loading, this`storeHandlers, manager`cache, manager.bus
      ensures complete && !loading && storeHandlers == 0
      ensures manager.cache == if old(storeHandlers) > 0 then old(manager.cache)[url := this] else old(manager.cache)
      ensures manager.bus.log == old(manager.bus.log) + Repeat(ResourceAdded(url, id), old(storeHandlers))
    {
      complete := true;
      loading := false;
      var n := storeHandlers;
      storeHandlers := 0;
      for k := 0 to n
        invariant complete && !loading && storeHandlers == 0
        invariant manager.cache == if k > 0 then old(manager.cache)[url := this] else old(manager.cache)
        invariant manager.bus.log == old(manager.bus.log) + Repeat(ResourceAdded(url, id), k)
      {
        RepeatSnoc(ResourceAdded(url, id), k);
        manager.Add(url, this);
      }
    }
  }

  /** `n` copies of `e`. */
  function Repeat(e: Event, n: nat): (r: seq<Event>)
    ensures |r| == n && forall i :: 0 <= i < n ==> r[i] == e
  {
    if n == 0 then [] else Repeat(e, n - 1) + [e]
  }

  lemma {:induction false} RepeatSnoc(e: Event, n: nat)
    ensures Repeat(e, n + 1) == Repeat(e, n) + [e]
  {
  }

  /** The handles of a cache's contents, as carried by Cleared. */
  function Handles(cache: map<string, LoaderResource>): (r: map<string, ResourceId>)
    ensures r.Keys == cache.Keys && forall k :: k in cache ==> r[k] == cache[k].id
  {
    map k | k in cache :: cache[k].id
  }

  /** `remove(keys)` walked key by key: a present key is deleted and
      announced; an absent one (including a repeat) is skipped. */
  function RemoveWalk(cache: map<string, LoaderResource>, keys: seq<string>): (r: (map<string, LoaderResource>, seq<Event>))
    ensures r.0 == cache - set k | k in keys
    decreases |keys|
  {
    if keys == [] then (cache, [])
    else
      var k := keys[0];
      var step := if k in cache then [ResourceRemoved(k, cache[k].id)] else [];
      var rest := RemoveWalk(cache - {k}, keys[1..]);
      assert (cache - {k}) - (set x | x in keys[1..]) == cache - set x | x in keys;
      (rest.0, step + rest.1)
  }

  /** `remove` announces a key exactly when it was cached and listed. */
  lemma {:induction false} RemoveAnnounces(cache: map<string, LoaderResource>, keys: seq<string>, k: string)
    ensures ResourceRemoved(k, if k in cache then cache[k].id else 0) in RemoveWalk(cache, keys).1
      <==> k in cache && k in keys
    decreases |keys|
  {
    if keys != [] {
      var k0 := keys[0];
      RemoveAnnounces(cache - {k0}, keys[1..], k);
      assert RemoveWalk(cache, keys).1 == (if k0 in cache then [ResourceRemoved(k0, cache[k0].id)] else [])
        + RemoveWalk(cache - {k0}, keys[1..]).1;
      assert keys == [k0] + keys[1..];
    }
  }

  /** A key is announced at most once however often it is listed. */
  lemma {:induction false} RemoveAnnouncesOnce(cache: map<string, LoaderResource>, keys: seq<string>, k: string)
    ensures multiset(RemoveWalk(cache, keys).1)[ResourceRemoved(k, if k in cache then cache[k].id else 0)] <= 1
    decreases |keys|
  {
    if keys != [] {
      var k0 := keys[0];
      var step := if k0 in cache then [ResourceRemoved(k0, cache[k0].id)] else [];
      assert RemoveWalk(cache, keys).1 == step + RemoveWalk(cache - {k0}, keys[1..]).1;
      if k == k0 && k in cache {
        RemoveSkips(cache - {k0}, keys[1..], k);
      } else {
        RemoveAnnouncesOnce(cache - {k0}, keys[1..], k);
      }
    }
  }

  /** Every announcement names a listed key that was cached, with its handle. */
  lemma {:induction false} RemoveOnlyListed(cache: map<string, LoaderResource>, keys: seq<string>)
    ensures forall e :: e in RemoveWalk(cache, keys).1 ==>
      (e.ResourceRemoved? && e.removedKey in cache && e.removedKey in keys && e.removed == cache[e.removedKey].id)
    decreases |keys|
  {
    if keys != [] {
      var k0 := keys[0];
      RemoveOnlyListed(cache - {k0}, keys[1..]);
      assert RemoveWalk(cache, keys).1 == (if k0 in cache then [ResourceRemoved(k0, cache[k0].id)] else [])
        + RemoveWalk(cache - {k0}, keys[1..]).1;
      assert forall x :: x in keys[1..] ==> x in keys;
    }
  }

  /** Once deleted, a key is never announced again. */
  lemma {:induction false} RemoveSkips(cache: map<string, LoaderResource>, keys: seq<string>, k: string)
    requires k !in cache
    ensures forall e :: e in RemoveWalk(cache, keys).1 ==> e.ResourceRemoved? && e.removedKey != k
    decreases |keys|
  {
    if keys != [] {
      RemoveSkips(cache - {keys[0]}, keys[1..], k);
    }
  }

  class ResourceManager {
    var cache: map<string, LoaderResource>
    var listeners: seq<ListenerId>
    /** The Loaded subscription made by the constructor is live. */
    var listening: bool
    /** The handle of that subscription. */
    const loadedListener: ListenerId
    const bus: MessageBus

    constructor(bus: MessageBus, listener: ListenerId)
      ensures cache == map[] && listeners == [listener] && listening && this.bus == bus
      ensures loadedListener == listener
    {
      cache := map[];
      listeners := [listener];
      listening := true;
      loadedListener := listener;
      this.bus := bus;
    }

    /** `add(key, resource)`: stored under the key, replacing any earlier
        entry, and Added published. */
    method Add(key: string, r: LoaderResource)
      modifies this`cache, bus
      ensures cache == old(cache)[key := r]
      ensures bus.log == old(bus.log) + [ResourceAdded(key, r.id)]
      ensures Has(key) && Get(key) == Some(r)
    {
      cache := cache[key := r];
      bus.Publish(ResourceAdded(key, r.id));
    }

    /** `has(key)`. */
    function Has(key: string): (r: bool)
      reads this
      ensures r <==> key in cache
    {
      key in cache
    }

    /** `get(key)`: `undefined` for a key never stored. */
    function Get(key: string): (r: Option<LoaderResource>)
      reads this
      ensures r.Some? <==> Has(key)
    {
      if key in cache then Some(cache[key]) else None
    }

    /** `remove(key | keys)`: a single key is the one-element list. */
    method Remove(keys: seq<string>)
      modifies this`cache, bus
      ensures cache == RemoveWalk(old(cache), keys).0
      ensures bus.log == old(bus.log) + RemoveWalk(old(cache), keys).1
    {
      ghost var said: seq<Event> := [];
      for i := 0 to |keys|
        invariant RemoveWalk(old(cache), keys).0 == RemoveWalk(cache, keys[i..]).0
        invariant RemoveWalk(old(cache), keys).1 == said + RemoveWalk(cache, keys[i..]).1
        invariant bus.log == old(bus.log) + said
      {
        var k := keys[i];
        assert keys[i..][1..] == keys[i + 1..];
        if k in cache {
          var r := cache[k];
          cache := cache - {k};
          bus.Publish(ResourceRemoved(k, r.id));
          said := said + [ResourceRemoved(k, r.id)];
        } else {
          assert cache - {k} == cache;
        }
      }
      assert keys[|keys|..] == [];
    }

    /** `clear()`: Cleared is published with the old contents, then the
        cache and the listener list are emptied. The subscription itself
        stays live. */
    method Clear()
      modifies this`cache, this`listeners, bus
      ensures cache == map[] && listeners == []
      ensures bus.log == old(bus.log) + [ResourceCleared(Handles(old(cache)))]
    {
      bus.Publish(ResourceCleared(Handles(cache)));
      listeners := [];
      cache := map[];
    }

    /** `destroy()`: every listener still in the list is unsubscribed, in
        order, before the cache is cleared. After an earlier `clear()` the
        list is empty, so the Loaded subscription survives. */
    method Destroy()
      modifies this, bus
      ensures cache == map[] && listeners == []
      ensures listening == (old(listening) && loadedListener !in old(listeners))
      ensures bus.log == old(bus.log) + Unsubscriptions(old(listeners)) + [ResourceCleared(Handles(old(cache)))]
    {
      var ls := listeners;
      for i := 0 to |ls|
        invariant bus.log == old(bus.log) + Unsubscriptions(ls[..i])
        invariant cache == old(cache) && listening == old(listening)
      {
        assert ls[..i + 1] == ls[..i] + [ls[i]];
        bus.Publish(Unsubscribed(ls[i]));
      }
      assert ls[..|ls|] == ls;
      listening := listening && loadedListener !in ls;
      Clear();
    }

    /** The Loaded subscription: while live, every resource the loader
        announces as loaded is added under its name. */
    method OnLoaderLoaded(r: LoaderResource)
      modifies this`cache, bus
      ensures listening ==> cache == old(cache)[r.name := r] && bus.log == old(bus.log) + [ResourceAdded(r.name, r.id)]
      ensures !listening ==> cache == old(cache) && bus.log == old(bus.log)
    {
      if listening {
        Add(r.name, r);
      }
    }
  }

  /** `clear()` empties the listener list without unsubscribing, so a later
      `destroy()` has nothing to turn off: the Loaded subscription stays live
      and the next loaded resource is cached again. */
  method ClearThenDestroy(bus: MessageBus, listener: ListenerId, r: LoaderResource) returns (m: ResourceManager)
    modifies bus
    ensures m.listening && m.listeners == [] && m.cache == map[r.name := r]
  {
    m := new ResourceManager(bus, listener);
    m.Clear();
    m.Destroy();
    m.OnLoaderLoaded(r);
  }

  function Unsubscriptions(ls: seq<ListenerId>): (r: seq<Event>)
    ensures |r| == |ls| && forall i :: 0 <= i < |ls| ==> r[i] == Unsubscribed(ls[i])
  {
    if ls == [] then [] else Unsubscriptions(ls[..|ls| - 1]) + [Unsubscribed(ls[|ls| - 1])]
  }
}
