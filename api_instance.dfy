/** The caching rules of the axios client (frontend/src/api/instance.ts): the
    cache key, which responses are stored and for how long, when a request is
    answered from the cache, and `invalidateCache`.  `JSON.stringify` of the
    request parameters is taken as given text (`None` when there are none). */
module ApiInstance {
  import opened Wrappers
  import opened Text
  import opened Json
  import opened ApiCache

  /** `${config.method}-${config.url}-${JSON.stringify(params || {})}`. */
  function CacheKey(verb: string, url: string, paramsJson: Option<string>): (r: string)
    ensures |r| == |verb| + |url| + 2 + |paramsJson.GetOr("{}")|
    ensures r[..|verb|] == verb && r[|verb|] == '-'
    ensures r[|verb| + 1..|verb| + 1 + |url|] == url && r[|verb| + 1 + |url|] == '-'
    ensures r[|verb| + |url| + 2..] == paramsJson.GetOr("{}")
  {
    verb + "-" + url + "-" + paramsJson.GetOr("{}")
  }

  /** The time to live by URL; the first matching rule wins. */
  function TtlFor(url: string): (r: int)
    ensures Contains(url, "/conversations/") ==> r == 2 * 60 * 1000
    ensures !Contains(url, "/conversations/") && Contains(url, "/messages") ==> r == 30 * 1000
    ensures !Contains(url, "/conversations/") && !Contains(url, "/messages") && Contains(url, "/settings") ==>
              r == 10 * 60 * 1000
    ensures !Contains(url, "/conversations/") && !Contains(url, "/messages") && !Contains(url, "/settings") ==>
              r == DefaultTtl
    ensures r > 0
  {
    if Contains(url, "/conversations/") then 2 * 60 * 1000
    else if Contains(url, "/messages") then 30 * 1000
    else if Contains(url, "/settings") then 10 * 60 * 1000
    else DefaultTtl
  }

  /** A conversation's messages live as long as conversations do: the
      `/conversations/` rule comes before `/messages`. */
  lemma ConversationMessagesTtl(id: string)
    ensures TtlFor("/conversations/" + id + "/messages/") == 2 * 60 * 1000
  {
    var u := "/conversations/" + id + "/messages/";
    assert StartsWith(u, "/conversations/");
  }

  /** A response is stored only for a GET answered with 200. */
  predicate Stored(verb: string, status: int) { verb == "get" && status == 200 }

  /** The request interceptor: a GET whose key holds truthy live data is
      answered from the cache with that data (as a 200), and the lookup drops
      an expired entry; anything else goes to the network. */
  method OnRequest(cache: APICache, verb: string, url: string, paramsJson: Option<string>, now: int)
    returns (served: Option<Json>)
    modifies cache
    ensures verb != "get" ==> served.None? && cache.cache == old(cache.cache)
    ensures verb == "get" ==>
      var key := CacheKey(verb, url, paramsJson);
      cache.cache == AfterLookup(old(cache.cache), key, now) &&
      (served.Some? <==> JsTruthy(Lookup(old(cache.cache), key, now))) &&
      (served.Some? ==> served.value == Lookup(old(cache.cache), key, now))
  {
    served := None;
    if verb == "get" {
      var data := cache.Get(CacheKey(verb, url, paramsJson), now);
      if JsTruthy(data) {
        served := Some(data);
      }
    }
  }

  /** The response interceptor's caching: a GET with 200 is stored under the
      request's key for the URL's time to live. */
  method OnResponse(cache: APICache, verb: string, url: string, paramsJson: Option<string>, status: int,
                    data: Json, now: int)
    modifies cache
    ensures Stored(verb, status) ==>
      cache.cache == old(cache.cache)[CacheKey(verb, url, paramsJson) := CacheItem(data, now, now + TtlFor(url))]
    ensures !Stored(verb, status) ==> cache.cache == old(cache.cache)
  {
    if verb == "get" && status == 200 {
      cache.Set(CacheKey(verb, url, paramsJson), data, now, TtlFor(url));
    }
  }

  /** A stored GET response answers the same request again, within the
      URL's time to live, when its data is truthy. */
  lemma StoredResponseServes(entries: Entries, url: string, paramsJson: Option<string>, data: Json, t: int, now: int)
    requires t <= now <= t + TtlFor(url)
    ensures var key := CacheKey("get", url, paramsJson);
            Lookup(entries[key := CacheItem(data, t, t + TtlFor(url))], key, now) == data
  {
  }

  /** The keys `invalidateCache(pattern)` removes: those containing the
      pattern; without a (non-empty) pattern, all. */
  function Invalidated(entries: Entries, pattern: Option<string>): (r: Entries)
    ensures pattern.None? || pattern.value == "" ==> r == map[]
    ensures pattern.Some? && pattern.value != "" ==>
      forall k :: (k in r <==> k in entries && !Contains(k, pattern.value)) && (k in r ==> r[k] == entries[k])
  {
    if pattern.None? || pattern.value == "" then map[]
    else map k | k in entries && !Contains(k, pattern.value) :: entries[k]
  }

  /** `invalidateCache`: deletes, one key at a time, every key containing the
      pattern, or clears the cache. */
  method InvalidateCache(cache: APICache, pattern: Option<string>)
    modifies cache
    ensures cache.cache == Invalidated(old(cache.cache), pattern)
  {
    if pattern.None? || pattern.value == "" {
      cache.Clear();
      return;
    }
    var p := pattern.value;
    var keys := cache.Stats().1;
    while keys != {}
      invariant keys <= old(cache.cache).Keys
      invariant cache.cache == map k | k in old(cache.cache) && (k in keys || !Contains(k, p)) :: old(cache.cache)[k]
      decreases |keys|
    {
      var k :| k in keys;
      if Contains(k, p) {
        cache.Delete(k);
      }
      keys := keys - {k};
    }
  }

  /** A GET answered from the cache still passes the response interceptor,
      which sees a 200 and stores the same data again: every cache hit
      restarts the entry's time to live. */
  method CacheHitRefreshes(cache: APICache, url: string, paramsJson: Option<string>, now: int)
    returns (served: Option<Json>)
    modifies cache
    ensures var key := CacheKey("get", url, paramsJson);
      served.Some? ==> served.value == Lookup(old(cache.cache), key, now) &&
                       cache.cache == old(cache.cache)[key := CacheItem(served.value, now, now + TtlFor(url))]
  {
    served := OnRequest(cache, "get", url, paramsJson, now);
    if served.Some? {
      OnResponse(cache, "get", url, paramsJson, 200, served.value, now);
    }
  }
}
