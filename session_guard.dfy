/**
 * Shared sessions and their guards.  The session cache maps a session id to
 * the number of guards still holding it and the session itself; dropping a
 * cached guard gives back one hold and evicts the session with the last one.
 */
module SessionGuard {
  import opened Wrappers

  /** Stands for a shared, reference-counted session object. */
  datatype SessionHandle = SessionHandle(serial: nat)

  /** A cache entry: the number of live guards and the session they share. */
  datatype CacheEntry = CacheEntry(holders: nat, session: SessionHandle)

  /** Every cached entry is held by at least one guard. */
  predicate Held(entries: map<string, CacheEntry>)
  {
    forall id :: id in entries ==> entries[id].holders > 0
  }

  /** The cache after one holder of `id` lets go. */
  function Release(entries: map<string, CacheEntry>, id: string): (r: map<string, CacheEntry>)
    requires id in entries && entries[id].holders > 0
    ensures id in r <==> entries[id].holders > 1
    ensures id in r ==> r[id] == CacheEntry(entries[id].holders - 1, entries[id].session)
    ensures forall other :: other != id ==> (other in r <==> other in entries)
    ensures forall other :: other != id && other in entries ==> r[other] == entries[other]
    ensures Held(entries) ==> Held(r)
  {
    var e := entries[id];
    if e.holders - 1 == 0 then entries - {id}
    else entries[id := CacheEntry(e.holders - 1, e.session)]
  }

  /** The cache after `n` holders of `id` let go. */
  function ReleaseTimes(entries: map<string, CacheEntry>, id: string, n: nat): map<string, CacheEntry>
    requires id in entries && entries[id].holders >= n > 0
    decreases n
  {
    if n == 1 then Release(entries, id)
    else ReleaseTimes(Release(entries, id), id, n - 1)
  }

  /** An entry held `n` times is evicted exactly by the `n`-th release, and the releases
    * before it leave it cached with the session it had. */
  lemma {:induction false} ReleaseAllEvicts(entries: map<string, CacheEntry>, id: string, n: nat)
    requires id in entries && entries[id].holders >= n > 0
    ensures var r := ReleaseTimes(entries, id, n);
      && (id in r <==> entries[id].holders > n)
      && (id in r ==> r[id] == CacheEntry(entries[id].holders - n, entries[id].session))
      && (forall other :: other != id ==> (other in r <==> other in entries))
      && (forall other :: other != id && other in entries ==> r[other] == entries[other])
    decreases n
  {
    if n > 1 {
      ReleaseAllEvicts(Release(entries, id), id, n - 1);
    }
  }

  /** The shared cache of open sessions. */
  class SessionCache {
    var entries: map<string, CacheEntry>

    ghost predicate Valid()
      reads this
    {
      Held(entries)
    }

    constructor ()
      ensures Valid() && entries == map[]
    {
      entries := map[];
    }
  }

  /** A guard on a shared session; `id` is present exactly when the session is cached. */
  class PpSessionGuard {
    const inner: SessionHandle
    const id: Option<string>
    const cache: SessionCache

    constructor (inner: SessionHandle, id: Option<string>, cache: SessionCache)
      ensures this.inner == inner && this.id == id && this.cache == cache
    {
      this.inner := inner;
      this.id := id;
      this.cache := cache;
    }

    /** The session the guard gives access to. */
    function Deref(): (s: SessionHandle)
      reads this
      ensures s == inner
    {
      inner
    }

    /** Dropping the guard, as one atomic step: a cached guard gives back its hold.
      * `fault` reports the unreachable state of a cached guard whose id the cache
      * has lost; the cache is then left alone. */
    method Drop() returns (fault: bool)
      requires cache.Valid()
      modifies cache
      ensures cache.Valid()
      ensures id.None? ==> !fault && cache.entries == old(cache.entries)
      ensures id.Some? && id.value !in old(cache.entries) ==> fault && cache.entries == old(cache.entries)
      ensures id.Some? && id.value in old(cache.entries) ==>
        !fault && cache.entries == Release(old(cache.entries), id.value)
    {
      fault := false;
      if id.Some? {
        var sessionId := id.value;
        if sessionId in cache.entries {
          var entry := cache.entries[sessionId];
          var counter := entry.holders - 1;
          cache.entries := cache.entries[sessionId := CacheEntry(counter, entry.session)];
          if 0 == counter {
            cache.entries := cache.entries - {sessionId};
          }
        } else {
          fault := true;
        }
      }
    }
  }
}
