/**
 * The endpoint cache both Transiter services keep: a map from endpoint to
 * the fetched data and the time (in milliseconds) it was stored. An entry
 * is served while it is younger than the service's timeout; otherwise the
 * endpoint is fetched again and, on success, the entry is replaced.
 *
 * The network is a parameter `fetch`: the data the endpoint returns, or
 * `None` when the request fails or answers with an error status.
 */
module TimedCache {
  import opened Wrappers

  datatype Entry<T> = Entry(data: T, timestamp: int)

  /** `cached && (Date.now() - cached.timestamp) < timeout`. */
  predicate IsFresh<T>(cache: map<string, Entry<T>>, key: string, now: int, timeout: int) {
    key in cache && now - cache[key].timestamp < timeout
  }

  /** What `fetchWithCache(key)` returns. */
  function Serve<T>(cache: map<string, Entry<T>>, key: string, now: int, timeout: int,
                    fetch: string -> Option<T>): (r: Option<T>)
    ensures IsFresh(cache, key, now, timeout) ==> r == Some(cache[key].data)
    ensures !IsFresh(cache, key, now, timeout) ==> r == fetch(key)
  {
    if IsFresh(cache, key, now, timeout) then Some(cache[key].data) else fetch(key)
  }

  /** The cache after `fetchWithCache(key)`. */
  function Refresh<T>(cache: map<string, Entry<T>>, key: string, now: int, timeout: int,
                      fetch: string -> Option<T>): (c: map<string, Entry<T>>)
    ensures IsFresh(cache, key, now, timeout) || fetch(key).None? ==> c == cache
    ensures !IsFresh(cache, key, now, timeout) && fetch(key).Some? ==>
              c == cache[key := Entry(fetch(key).value, now)]
  {
    if IsFresh(cache, key, now, timeout) then cache
    else match fetch(key)
      case Some(data) => cache[key := Entry(data, now)]
      case None => cache
  }

  /**
   * Within one instant the cache is transparent: after serving any key, every
   * key is served exactly as before (a stored entry is fresh, and holds what
   * the network would have answered).
   */
  lemma ServeStable<T>(cache: map<string, Entry<T>>, key: string, other: string, now: int, timeout: int,
                       fetch: string -> Option<T>)
    requires timeout > 0
    ensures Serve(Refresh(cache, key, now, timeout, fetch), other, now, timeout, fetch)
            == Serve(cache, other, now, timeout, fetch)
  {
  }

  /** The cache after `fetchWithCache` on each of `keys` in turn, all at the same `now`. */
  function RefreshAll<T>(cache: map<string, Entry<T>>, keys: seq<string>, now: int, timeout: int,
                         fetch: string -> Option<T>): (c: map<string, Entry<T>>)
    ensures forall k :: k in cache ==> k in c
    ensures forall k :: k in c && k !in cache ==> k in keys
  {
    if |keys| == 0 then cache
    else Refresh(RefreshAll(cache, keys[..|keys| - 1], now, timeout, fetch), keys[|keys| - 1], now, timeout, fetch)
  }

  lemma RefreshAllSnoc<T>(cache: map<string, Entry<T>>, keys: seq<string>, key: string, now: int, timeout: int,
                          fetch: string -> Option<T>)
    ensures RefreshAll(cache, keys + [key], now, timeout, fetch)
            == Refresh(RefreshAll(cache, keys, now, timeout, fetch), key, now, timeout, fetch)
  {
    assert (keys + [key])[..|keys|] == keys;
  }

  /** `ServeStable` over a whole run of fetches at the same instant. */
  lemma {:induction false} ServeStableAll<T>(cache: map<string, Entry<T>>, keys: seq<string>, other: string,
                                             now: int, timeout: int, fetch: string -> Option<T>)
    requires timeout > 0
    ensures Serve(RefreshAll(cache, keys, now, timeout, fetch), other, now, timeout, fetch)
            == Serve(cache, other, now, timeout, fetch)
    decreases |keys|
  {
    if |keys| > 0 {
      var prefix := keys[..|keys| - 1];
      ServeStableAll(cache, prefix, other, now, timeout, fetch);
      ServeStable(RefreshAll(cache, prefix, now, timeout, fetch), keys[|keys| - 1], other, now, timeout, fetch);
    }
  }

  /** When every request fails, a run of fetches leaves the cache as it was. */
  lemma {:induction false} RefreshAllFailing<T>(cache: map<string, Entry<T>>, keys: seq<string>, now: int,
                                                timeout: int, fetch: string -> Option<T>)
    requires forall k :: fetch(k).None?
    ensures RefreshAll(cache, keys, now, timeout, fetch) == cache
    decreases |keys|
  {
    if |keys| > 0 {
      RefreshAllFailing(cache, keys[..|keys| - 1], now, timeout, fetch);
    }
  }

  /** A stored entry is served only until `timeout` milliseconds have passed. */
  lemma ExpiresAfterTimeout<T>(cache: map<string, Entry<T>>, key: string, now: int, later: int, timeout: int,
                               fetch: string -> Option<T>)
    requires !IsFresh(cache, key, now, timeout) && fetch(key).Some?
    requires later >= now + timeout
    ensures !IsFresh(Refresh(cache, key, now, timeout, fetch), key, later, timeout)
  {
  }
}
