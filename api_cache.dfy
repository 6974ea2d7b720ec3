/** The client-side response cache (frontend/src/utils/apiCache.ts): a map
    from key to data with an absolute expiry time.  `Date.now()` is the `now`
    parameter, in milliseconds. */
module ApiCache {
  import opened Json

  datatype CacheItem = CacheItem(data: Json, timestamp: int, expiry: int)

  type Entries = map<string, CacheItem>

  const DefaultTtl: int := 5 * 60 * 1000

  /** An entry is live up to and including its expiry time. */
  predicate Live(cache: Entries, key: string, now: int) {
    key in cache && now <= cache[key].expiry
  }

  /** What `get` returns: the data of a live entry, else `null`. */
  function Lookup(cache: Entries, key: string, now: int): (r: Json)
    ensures Live(cache, key, now) ==> r == cache[key].data
    ensures !Live(cache, key, now) ==> r == JNull
  {
    if Live(cache, key, now) then cache[key].data else JNull
  }

  /** The entries after a `get` or `has`: an expired entry for the key is
      dropped, everything else stays. */
  function AfterLookup(cache: Entries, key: string, now: int): (r: Entries)
    ensures key in cache && !Live(cache, key, now) ==> r == cache - {key}
    ensures Live(cache, key, now) || key !in cache ==> r == cache
  {
    if key in cache && now > cache[key].expiry then cache - {key} else cache
  }

  /** The entries `cleanup` keeps: exactly the live ones. */
  function Unexpired(cache: Entries, now: int): (r: Entries)
    ensures forall k :: k in r <==> Live(cache, k, now)
    ensures forall k :: k in r ==> k in cache && r[k] == cache[k]
  {
    map k | k in cache && now <= cache[k].expiry :: cache[k]
  }

  /** Stored data is returned until its expiry time, inclusive, and `null`
      afterwards. */
  lemma SetThenGet(cache: Entries, key: string, data: Json, ttl: int, t: int, now: int)
    ensures now <= t + ttl ==> Lookup(cache[key := CacheItem(data, t, t + ttl)], key, now) == data
    ensures now > t + ttl ==> Lookup(cache[key := CacheItem(data, t, t + ttl)], key, now) == JNull
    ensures now > t + ttl ==> key !in AfterLookup(cache[key := CacheItem(data, t, t + ttl)], key, now)
  {
  }

  /** `has` agrees with `get` returning non-null, unless the stored data is
      itself `null`. */
  lemma HasAgreesWithGet(cache: Entries, key: string, now: int)
    requires key in cache ==> cache[key].data != JNull
    ensures Live(cache, key, now) <==> Lookup(cache, key, now) != JNull
  {
  }

  /** After a cleanup no lookup finds an expired entry, and live entries are
      found as before. */
  lemma CleanupKeepsLookups(cache: Entries, key: string, now: int)
    ensures Lookup(Unexpired(cache, now), key, now) == Lookup(cache, key, now)
  {
  }

  class APICache {
    var cache: Entries

    constructor ()
      ensures cache == map[]
    {
      cache := map[];
    }

    /** `set`: overwrites any entry for the key; `now` is the clock and the
        time to live defaults to five minutes. */
    method Set(key: string, data: Json, now: int, ttl: int := DefaultTtl)
      modifies this
      ensures cache == old(cache)[key := CacheItem(data, now, now + ttl)]
    {
      cache := cache[key := CacheItem(data, now, now + ttl)];
    }

    method Get(key: string, now: int) returns (r: Json)
      modifies this
      ensures r == Lookup(old(cache), key, now)
      ensures cache == AfterLookup(old(cache), key, now)
    {
      if key !in cache {
        return JNull;
      }
      var item := cache[key];
      if now > item.expiry {
        cache := cache - {key};
        return JNull;
      }
      return item.data;
    }

    method Has(key: string, now: int) returns (r: bool)
      modifies this
      ensures r == Live(old(cache), key, now)
      ensures cache == AfterLookup(old(cache), key, now)
    {
      if key !in cache {
        return false;
      }
      if now > cache[key].expiry {
        cache := cache - {key};
        return false;
      }
      return true;
    }

    method Delete(key: string)
      modifies this
      ensures cache == old(cache) - {key}
    {
      cache := cache - {key};
    }

    method Clear()
      modifies this
      ensures cache == map[]
    {
      cache := map[];
    }

    /** `cleanup`: walks the entries, deleting each expired one. */
    method Cleanup(now: int)
      modifies this
      ensures cache == Unexpired(old(cache), now)
    {
      var todo := cache.Keys;
      while todo != {}
        invariant todo <= old(cache).Keys
        invariant cache == map k | k in old(cache) && (k in todo || now <= old(cache)[k].expiry) :: old(cache)[k]
        decreases |todo|
      {
        var k :| k in todo;
        if now > cache[k].expiry {
          cache := cache - {k};
        }
        todo := todo - {k};
      }
    }

    /** `getStats`: the number of entries and their keys. */
    function Stats(): (r: (nat, set<string>))
      reads this
      ensures r.0 == |r.1| && r.1 == cache.Keys
    {
      (|cache.Keys|, cache.Keys)
    }
  }
}
