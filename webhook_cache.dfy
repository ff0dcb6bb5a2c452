/** `WebhookCache`: a process-wide map from a key to the last value put for it, stamped
  * with the time of the put; an entry is served for 5 minutes and evicted once stale.
  * Every read of the clock is the explicit `now` (epoch milliseconds). */
module Cache {
  import opened Wrappers

  const EXPIRY_MS: int := 5 * 60 * 1000

  /** `record CachedItem(Object value, long timestamp)`. */
  datatype CachedItem<V> = CachedItem(value: V, timestamp: int)

  /** `CachedItem.isExpired`: strictly more than `EXPIRY_MS` since the put. */
  predicate IsExpired<V>(item: CachedItem<V>, now: int) {
    now - item.timestamp > EXPIRY_MS
  }

  /** The map after `put(key, value)` at time `now`. */
  function AfterPut<V>(cache: map<string, CachedItem<V>>, key: string, value: V, now: int): (c: map<string, CachedItem<V>>)
    ensures c.Keys == cache.Keys + {key}
    ensures c[key] == CachedItem(value, now) && !IsExpired(c[key], now)
    ensures forall k :: k in cache && k != key ==> c[k] == cache[k]
  {
    cache[key := CachedItem(value, now)]
  }

  /** What `get(key)` returns at time `now`, and the map afterwards. */
  datatype GetOutcome<V> = GetOutcome(result: Option<V>, cache: map<string, CachedItem<V>>)

  function AfterGet<V>(cache: map<string, CachedItem<V>>, key: string, now: int): (r: GetOutcome<V>)
    ensures r.result.Some? <==> key in cache && !IsExpired(cache[key], now)
    ensures r.result.Some? ==> r.result.value == cache[key].value && r.cache == cache
    ensures r.result.None? ==> r.cache.Keys == cache.Keys - {key}
    ensures forall k :: k in r.cache ==> r.cache[k] == cache[k]
  {
    if key !in cache || IsExpired(cache[key], now) then GetOutcome(None, cache - {key})
    else GetOutcome(Some(cache[key].value), cache)
  }

  /** The map after `cleanup()` at time `now`. */
  function Cleaned<V>(cache: map<string, CachedItem<V>>, now: int): (c: map<string, CachedItem<V>>)
    ensures forall k :: k in c <==> k in cache && !IsExpired(cache[k], now)
    ensures forall k :: k in c ==> c[k] == cache[k]
  {
    map k | k in cache && !IsExpired(cache[k], now) :: cache[k]
  }

  /** A get no later than `EXPIRY_MS` after the last put of the key returns what was put
    * (the boundary is included), and does not touch the entry's timestamp. */
  lemma GetWithinExpiryReturnsLastPut<V>(cache: map<string, CachedItem<V>>, key: string, value: V, putAt: int, now: int)
    requires putAt <= now <= putAt + EXPIRY_MS
    ensures AfterGet(AfterPut(cache, key, value, putAt), key, now) == GetOutcome(Some(value), AfterPut(cache, key, value, putAt))
  {
  }

  /** A get later than that returns nothing and leaves the key absent. */
  lemma GetAfterExpiryEvicts<V>(cache: map<string, CachedItem<V>>, key: string, value: V, putAt: int, now: int)
    requires now > putAt + EXPIRY_MS
    ensures AfterGet(AfterPut(cache, key, value, putAt), key, now).result == None
    ensures key !in AfterGet(AfterPut(cache, key, value, putAt), key, now).cache
  {
  }

  /** A later put of the same key replaces the earlier value. */
  lemma PutOverwrites<V>(cache: map<string, CachedItem<V>>, key: string, v1: V, t1: int, v2: V, t2: int, now: int)
    requires t2 <= now <= t2 + EXPIRY_MS
    ensures AfterGet(AfterPut(AfterPut(cache, key, v1, t1), key, v2, t2), key, now).result == Some(v2)
  {
  }

  /** Whether a get hits does not depend on whether a cleanup ran first at the same time. */
  lemma CleanupInvisibleToGet<V>(cache: map<string, CachedItem<V>>, key: string, now: int)
    ensures AfterGet(Cleaned(cache, now), key, now).result == AfterGet(cache, key, now).result
  {
  }

  lemma CleanupIdempotent<V>(cache: map<string, CachedItem<V>>, now: int)
    ensures Cleaned(Cleaned(cache, now), now) == Cleaned(cache, now)
  {
  }

  /** Once expired, an entry stays expired. */
  lemma ExpiryIsPermanent<V>(item: CachedItem<V>, now: int, later: int)
    requires IsExpired(item, now) && now <= later
    ensures IsExpired(item, later)
  {
  }

  /** The static map of the Java class, as the one field of an object. */
  class WebhookCache<V> {
    var cache: map<string, CachedItem<V>>

    constructor ()
      ensures cache == map[]
    {
      cache := map[];
    }

    /** `put(key, value)`: replaces any entry for `key` with one stamped `now`. */
    method Put(key: string, value: V, now: int)
      modifies this
      ensures cache == AfterPut(old(cache), key, value, now)
    {
      cache := cache[key := CachedItem(value, now)];
    }

    /** `get(key)`: the value while fresh; otherwise the entry is removed and null returned. */
    method Get(key: string, now: int) returns (r: Option<V>)
      modifies this
      ensures GetOutcome(r, cache) == AfterGet(old(cache), key, now)
    {
      if key !in cache || IsExpired(cache[key], now) {
        cache := cache - {key};
        r := None;
      } else {
        r := Some(cache[key].value);
      }
    }

    /** `cleanup()`: `removeIf` over the entries that are expired at `now`. */
    method Cleanup(now: int)
      modifies this
      ensures cache == Cleaned(old(cache), now)
    {
      cache := map k | k in cache && !IsExpired(cache[k], now) :: cache[k];
    }
  }
}
