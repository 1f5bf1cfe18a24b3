/**
 * The fetch-and-revalidate layer: the offline-aware fetcher that every screen's
 * query goes through, the SWR key/value cache with its `mutate` calls, the
 * optimistic-update protocol, `invalidateQueries`, and the option merge of
 * `useSupabaseQuery`.
 *
 * Connectivity (`isOnline()`), the query function's outcome and the data a
 * revalidation fetches are parameters.
 */
module OfflineSwr {
  import opened Wrappers
  import opened Json
  import opened OfflineStorage

  /** Lifetime of a fetched result in the offline cache: 10 minutes, in milliseconds. */
  const FetchTtlMs: int := 10 * 60 * 1000

  /** A thrown JavaScript `Error`. */
  datatype Error = Error(message: string)

  /** What the fetcher throws when it is offline and has nothing usable cached. */
  const OfflineError: Error := Error("Offline and no cached data available")

  /** The offline branch of the fetcher, given what `getCached(key)` returned. */
  function OfflineAnswer(cached: Option<Json>): (r: Result<Json, Error>)
    ensures r.Ok? <==> cached.Some? && Truthy(cached.value)
    ensures r.Ok? ==> r.value == cached.value
    ensures r.Err? ==> r.error == OfflineError
  {
    if cached.Some? && Truthy(cached.value) then Ok(cached.value) else Err(OfflineError)
  }

  /**
   * The fetcher built by `createFetcher(queryFn)`, called for key at time now.
   * query is the outcome `queryFn` would have; queried says whether it was called.
   */
  method Fetch(db: OfflineDb, key: string, online: bool, query: Result<Json, Error>, now: int)
    returns (r: Result<Json, Error>, queried: bool)
    requires db.Valid()
    modifies db`cache
    ensures db.Valid()
    ensures queried == online
    ensures !online ==> r == OfflineAnswer(CachedValue(old(db.cache), key, now))
    ensures !online ==> db.cache == CacheAfterRead(old(db.cache), key, now)
    ensures online ==> r == query
    ensures online && query.Err? ==> db.cache == old(db.cache)
    ensures online && query.Ok? ==> db.cache == old(db.cache)[key := CacheEntry(key, query.value, now + FetchTtlMs)]
  {
    if !online {
      var cached := db.GetCached(key, now);
      return OfflineAnswer(cached), false;
    }
    queried := true;
    if query.Err? {
      return query, queried;
    }
    db.SetCache(key, query.value, now, FetchTtlMs);
    return query, queried;
  }

  /** Offline, a fresh truthy cache entry is served as it is; a missing or expired one is a connectivity error. */
  lemma OfflineFallback(cache: map<string, CacheEntry>, key: string, now: int)
    ensures key in cache && now <= cache[key].expiresAt && Truthy(cache[key].data) ==>
              OfflineAnswer(CachedValue(cache, key, now)) == Ok(cache[key].data)
    ensures key !in cache || cache[key].expiresAt < now ==>
              OfflineAnswer(CachedValue(cache, key, now)) == Err(OfflineError)
  {
  }

  /**
   * What an online fetch stores, an offline fetch up to 10 minutes later serves
   * (when the result is truthy); after that it is gone.
   */
  method FetchOnlineThenOffline(db: OfflineDb, key: string, v: Json, now: int, later: int)
    returns (first: Result<Json, Error>, second: Result<Json, Error>)
    requires db.Valid()
    requires now <= later
    modifies db`cache
    ensures first == Ok(v)
    ensures later <= now + FetchTtlMs ==> second == OfflineAnswer(Some(v))
    ensures later > now + FetchTtlMs ==> second == Err(OfflineError) && key !in db.cache
  {
    var queried;
    first, queried := Fetch(db, key, true, Ok(v), now);
    second, queried := Fetch(db, key, false, Err(Error("unused")), later);
  }

  // ---------------------------------------------------------------------
  // The SWR cache
  // ---------------------------------------------------------------------

  /** One write to the SWR cache: a local `mutate` without revalidation, or a revalidation. */
  datatype SwrEvent<T> = Written(key: string, written: Option<T>) | Revalidated(key: string, refetchedValue: T)

  /** The SWR cache's data after revalidating keys[0], keys[1], ... with refetched[0], refetched[1], ... */
  function RevalidateAll<T>(data: map<string, T>, keys: seq<string>, refetched: seq<T>): map<string, T>
    requires |refetched| == |keys|
    decreases |keys|
  {
    if keys == [] then data
    else RevalidateAll(data[keys[0] := refetched[0]], keys[1..], refetched[1..])
  }

  /** The revalidation events of the same walk. */
  function RevalidationEvents<T>(keys: seq<string>, refetched: seq<T>): (r: seq<SwrEvent<T>>)
    requires |refetched| == |keys|
    ensures |r| == |keys|
    ensures forall i :: 0 <= i < |keys| ==> r[i] == Revalidated(keys[i], refetched[i])
  {
    seq(|keys|, i requires 0 <= i < |keys| => Revalidated(keys[i], refetched[i]))
  }

  /**
   * After revalidating a list of keys every listed key holds the value of its
   * last revalidation, and every other key is untouched.
   */
  lemma {:induction false} RevalidateAllEffect<T>(data: map<string, T>, keys: seq<string>, refetched: seq<T>)
    requires |refetched| == |keys|
    decreases |keys|
    ensures RevalidateAll(data, keys, refetched).Keys == data.Keys + set i | 0 <= i < |keys| :: keys[i]
    ensures forall k :: k in data && k !in keys ==> RevalidateAll(data, keys, refetched)[k] == data[k]
    ensures forall i :: 0 <= i < |keys| && keys[i] !in keys[i + 1..] ==>
              RevalidateAll(data, keys, refetched)[keys[i]] == refetched[i]
  {
    if keys != [] {
      RevalidateAllEffect(data[keys[0] := refetched[0]], keys[1..], refetched[1..]);
      assert (set i | 0 <= i < |keys| :: keys[i]) == {keys[0]} + set i | 0 <= i < |keys[1..]| :: keys[1..][i];
      forall i | 1 <= i < |keys| && keys[i] !in keys[i + 1..]
        ensures RevalidateAll(data, keys, refetched)[keys[i]] == refetched[i]
      {
        assert keys[1..][i - 1] == keys[i];
        assert keys[1..][i - 1 + 1..] == keys[i + 1..];
      }
      if keys[0] !in keys[1..] {
        assert keys[0] in RevalidateAll(data, keys, refetched);
      }
    }
  }

  /**
   * The SWR cache: `data` maps each key to its current value, and `log` records
   * every write in order, which is what lets contracts say that a step did or
   * did not revalidate.
   */
  class SwrCache<T> {
    var data: map<string, T>
    var log: seq<SwrEvent<T>>

    constructor ()
      ensures data == map[] && log == []
    {
      data, log := map[], [];
    }

    /** `mutate(key, value, { revalidate: false })`; an `undefined` value empties the key. */
    method Mutate(key: string, value: Option<T>)
      modifies this
      ensures data == if value.Some? then old(data)[key := value.value] else old(data) - {key}
      ensures log == old(log) + [Written(key, value)]
    {
      data := if value.Some? then data[key := value.value] else data - {key};
      log := log + [Written(key, value)];
    }

    /** `mutate(key)`: refetch the key, refetched being what the fetch returned. */
    method Revalidate(key: string, refetched: T)
      modifies this
      ensures data == old(data)[key := refetched]
      ensures log == old(log) + [Revalidated(key, refetched)]
    {
      data := data[key := refetched];
      log := log + [Revalidated(key, refetched)];
    }

    /**
     * `optimisticUpdate(key, updateFn, serverFn)`: write updateFn(current) without
     * revalidating, run serverFn (whose outcome is server), then revalidate with
     * refetched whatever the outcome, and rethrow a failure.
     */
    method OptimisticUpdate<E>(key: string, updateFn: Option<T> -> T, server: Outcome<E>, refetched: T)
      returns (thrown: Option<E>)
      modifies this
      ensures log == old(log) + [Written(key, Some(updateFn(Get(old(data), key)))), Revalidated(key, refetched)]
      ensures data == old(data)[key := refetched]
      ensures server.Pass? ==> thrown == None
      ensures server.Fail? ==> thrown == Some(server.error)
    {
      Mutate(key, Some(updateFn(Get(data, key))));
      Revalidate(key, refetched);
      thrown := if server.Fail? then Some(server.error) else None;
    }

    /** `invalidateQueries(keys)`: revalidate every listed key; refetched[i] is what keys[i]'s refetch returned. */
    method InvalidateQueries(keys: seq<string>, refetched: seq<T>)
      requires |refetched| == |keys|
      modifies this
      ensures data == RevalidateAll(old(data), keys, refetched)
      ensures log == old(log) + RevalidationEvents(keys, refetched)
    {
      var i := 0;
      while i < |keys|
        invariant 0 <= i <= |keys|
        invariant RevalidateAll(data, keys[i..], refetched[i..]) == RevalidateAll(old(data), keys, refetched)
        invariant log == old(log) + RevalidationEvents(keys[..i], refetched[..i])
      {
        assert keys[i..][1..] == keys[i + 1..] && refetched[i..][1..] == refetched[i + 1..];
        assert keys[..i + 1] == keys[..i] + [keys[i]] && refetched[..i + 1] == refetched[..i] + [refetched[i]];
        Revalidate(keys[i], refetched[i]);
        i := i + 1;
      }
      assert keys[..i] == keys && refetched[..i] == refetched;
    }
  }

  // ---------------------------------------------------------------------
  // useSupabaseQuery's options
  // ---------------------------------------------------------------------

  /** The caller's SWR configuration; None is a field the caller did not give. */
  datatype SwrConfig = SwrConfig(
    revalidateOnFocus: Option<bool>, revalidateOnReconnect: Option<bool>, keepPreviousData: Option<bool>)

  /** The options `useSupabaseQuery` passes to `useSWR`. */
  datatype SwrOptions = SwrOptions(revalidateOnFocus: bool, revalidateOnReconnect: bool, keepPreviousData: bool)

  /** `{ revalidateOnFocus: true, revalidateOnReconnect: true, ...config, keepPreviousData: true }`. */
  function QueryOptions(config: Option<SwrConfig>): (r: SwrOptions)
    ensures r.keepPreviousData
    ensures config.None? ==> r.revalidateOnFocus && r.revalidateOnReconnect
    ensures config.Some? ==> r.revalidateOnFocus == config.value.revalidateOnFocus.GetOr(true)
    ensures config.Some? ==> r.revalidateOnReconnect == config.value.revalidateOnReconnect.GetOr(true)
  {
    match config
    case None => SwrOptions(true, true, true)
    case Some(c) => SwrOptions(c.revalidateOnFocus.GetOr(true), c.revalidateOnReconnect.GetOr(true), true)
  }
}
