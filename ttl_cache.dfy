/**
  The module-level `cache` map that both quote routes keep: entries stamped
  with the time they were stored, a lookup that honours only entries younger
  than the cache duration, and no eviction at all.
 */
module TtlCache {
  import opened Js

  /** `CACHE_DURATION`, in milliseconds. */
  const CACHE_DURATION: int := 30000

  datatype Entry<T> = Entry(data: T, timestamp: int)

  /** `Date.now() - cached.timestamp < CACHE_DURATION`. */
  predicate IsFresh<T>(e: Entry<T>, now: int)
  {
    now - e.timestamp < CACHE_DURATION
  }

  /** What `cache.get(key)` followed by the freshness test yields at time `now`. */
  function Lookup<T>(entries: map<string, Entry<T>>, key: string, now: int): (r: Option<T>)
    ensures r.Some? <==> key in entries && now - entries[key].timestamp < CACHE_DURATION
    ensures r.Some? ==> r.value == entries[key].data
  {
    if key in entries && IsFresh(entries[key], now) then Some(entries[key].data) else None
  }

  /** An entry stored at `t` is served up to, but not including, `t + CACHE_DURATION`. */
  lemma StoredEntryServedWithinWindow<T>(entries: map<string, Entry<T>>, key: string, data: T, t: int, now: int)
    ensures Lookup(entries[key := Entry(data, t)], key, now) == (if now < t + CACHE_DURATION then Some(data) else None)
  {
  }

  /** Storing under one key leaves every other key's lookup as it was. */
  lemma StoreIsolatesKeys<T>(entries: map<string, Entry<T>>, key: string, other: string, data: T, t: int, now: int)
    requires other != key
    ensures Lookup(entries[key := Entry(data, t)], other, now) == Lookup(entries, other, now)
  {
  }

  class Cache<T> {
    /** The stored entries; nothing ever removes one. */
    var entries: map<string, Entry<T>>

    constructor ()
      ensures entries == map[]
    {
      entries := map[];
    }

    /** `cache.get(key)` and the freshness test: a hit only for an entry younger than the duration. */
    method Get(key: string, now: int) returns (r: Option<T>)
      ensures r == Lookup(entries, key, now)
    {
      if key in entries {
        var cached := entries[key];
        if now - cached.timestamp < CACHE_DURATION {
          return Some(cached.data);
        }
      }
      return None;
    }

    /** `cache.set(key, {data, timestamp: now})`: overwrites, never evicts. */
    method Put(key: string, data: T, now: int)
      modifies this
      ensures entries == old(entries)[key := Entry(data, now)]
    {
      entries := entries[key := Entry(data, now)];
    }
  }
}
