/**
 * The Redis-backed cached fetch (`fetch_sensor_data`) as a pure function of
 * the store, the clock and the upstream answer. The service class applies
 * it in place.
 *
 * The store keeps, per key, the payload itself (JSON encoding is abstracted
 * away) and the second it was written. Every write is `SETEX key 300`, and a
 * key is served while no more than `CacheTtl` seconds have passed since its
 * write.
 */
module SensorCache {
  import opened Wrappers
  import opened SensorData

  /** `CACHE_TTL`: seconds an entry lives after `setex`. */
  const CacheTtl: int := 300

  datatype Entry = Entry(payload: Payload, writtenAt: int)

  type Cache = map<string, Entry>

  /** `f"sensor_data_{box_id}"`. */
  function CacheKey(boxId: string): string {
    "sensor_data_" + boxId
  }

  /** `redis_client.get(key)` at time `now`: the payload unless missing or expired. */
  function Get(c: Cache, key: string, now: int): Option<Payload> {
    if key in c && now - c[key].writtenAt <= CacheTtl then Some(c[key].payload) else None
  }

  /**
   * What one call of the fetcher produces: the returned document, the new
   * store, and the value written to the cache-age gauge (None when the gauge
   * is left alone).
   */
  datatype Fetched = Fetched(data: Option<Payload>, cache: Cache, ageGauge: Option<int>)

  /**
   * `fetch_sensor_data(box_id)` at time `now`, where `upstream` is the
   * parsed response of the HTTP call (None for any request failure).
   * A hit returns the stored document, never consults `upstream`, and sets
   * the gauge to the entry's age when it carries a truthy stamp. A miss
   * with an answer stamps it with `now`, writes it and resets the gauge. A
   * miss without an answer returns None and changes nothing.
   */
  function FetchSpec(c: Cache, boxId: string, now: int, upstream: Option<Payload>): (f: Fetched)
    ensures Get(c, CacheKey(boxId), now).Some? ==>
              && f.data == Get(c, CacheKey(boxId), now)
              && f.cache == c
              && f.ageGauge == (var s := f.data.value.Stamp(); if s.Some? then Some(now - s.value) else None)
    ensures Get(c, CacheKey(boxId), now).None? && upstream.Some? ==>
              && f.data == Some(upstream.value.Stamped(now))
              && f.cache.Keys == c.Keys + {CacheKey(boxId)}
              && (forall k :: k in c && k != CacheKey(boxId) ==> f.cache[k] == c[k])
              && f.cache[CacheKey(boxId)] == Entry(f.data.value, now)
              && Get(f.cache, CacheKey(boxId), now) == f.data
              && f.ageGauge == Some(0)
    ensures Get(c, CacheKey(boxId), now).None? && upstream.None? ==>
              f.data.None? && f.cache == c && f.ageGauge.None?
  {
    var key := CacheKey(boxId);
    match Get(c, key, now)
    case Some(p) =>
      var age := if p.Stamp().Some? then Some(now - p.Stamp().value) else None;
      Fetched(Some(p), c, age)
    case None =>
      match upstream
      case Some(q) =>
        var data := q.Stamped(now);
        Fetched(Some(data), c[key := Entry(data, now)], Some(0))
      case None =>
        Fetched(None, c, None)
  }

  /** Whatever the branch, the fetcher writes at most the one key it looks up. */
  lemma FetchTouchesOnlyItsKey(c: Cache, boxId: string, now: int, upstream: Option<Payload>, k: string)
    requires k != CacheKey(boxId)
    ensures (k in FetchSpec(c, boxId, now, upstream).cache) == (k in c)
    ensures k in c ==> FetchSpec(c, boxId, now, upstream).cache[k] == c[k]
  {
  }

  /**
   * Cache round trip: after a fetch that returned a document, every fetch of
   * the same box within the TTL returns that same document, whatever
   * upstream would answer, and leaves the store as it is.
   */
  lemma FetchThenHit(c: Cache, boxId: string, now: int, upstream: Option<Payload>,
                     later: int, upstream': Option<Payload>)
    requires FetchSpec(c, boxId, now, upstream).data.Some?
    requires Get(c, CacheKey(boxId), now).None?
    requires now <= later <= now + CacheTtl
    ensures var f := FetchSpec(c, boxId, now, upstream);
            var g := FetchSpec(f.cache, boxId, later, upstream');
            && g.data == f.data && g.cache == f.cache
            && g.ageGauge == (if now != 0 then Some(later - now) else None)
  {
  }

  /**
   * The entry a fetch writes expires 300 seconds later: past that, the key
   * is unreadable and the next fetch goes upstream again, returning that
   * answer stamped with the new time, or None.
   */
  lemma FetchThenExpire(c: Cache, boxId: string, now: int, upstream: Option<Payload>,
                        later: int, upstream': Option<Payload>)
    requires Get(c, CacheKey(boxId), now).None? && upstream.Some?
    requires later > now + CacheTtl
    ensures var f := FetchSpec(c, boxId, now, upstream);
            && Get(f.cache, CacheKey(boxId), later).None?
            && FetchSpec(f.cache, boxId, later, upstream').data ==
                 (if upstream'.Some? then Some(upstream'.value.Stamped(later)) else None)
  {
  }

  /** A miss after which upstream failed leaves the entry unreadable. */
  lemma FailedFetchLeavesMiss(c: Cache, boxId: string, now: int)
    requires Get(c, CacheKey(boxId), now).None?
    ensures FetchSpec(c, boxId, now, None).data.None?
    ensures Get(FetchSpec(c, boxId, now, None).cache, CacheKey(boxId), now).None?
  {
  }

  /** Expiry is monotone: an entry that is unreadable now stays unreadable later. */
  lemma MissStaysMiss(c: Cache, key: string, now: int, later: int)
    requires now <= later
    requires Get(c, key, now).None?
    ensures Get(c, key, later).None?
  {
  }
}
