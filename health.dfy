/**
 * The readiness verdict of `/readyz`: box reachability from
 * `check_senseboxes_health` combined with the age of the cached document.
 */
module Health {
  import opened Wrappers
  import opened SensorData
  import opened SensorCache

  /** `TARGET_ID`: the one box the service watches. */
  const TargetId: string := "5eba5fbad46fb8001b799786"

  /** `total_boxes` in `check_senseboxes_health`. */
  const TotalBoxes: nat := 1

  /** `(total_boxes // 2) + 1`. */
  function BoxesThreshold(total: nat): nat {
    total / 2 + 1
  }

  /** The threshold asks for a strict majority of the boxes. */
  lemma ThresholdIsStrictMajority(accessible: nat, total: nat)
    ensures accessible >= BoxesThreshold(total) <==> 2 * accessible > total
  {
  }

  /** `(accessible_boxes / total_boxes) * 100`, with true division. */
  function Availability(accessible: nat, total: nat): (pct: real)
    requires total > 0
    ensures accessible <= total ==> 0.0 <= pct <= 100.0
    ensures pct == 100.0 <==> accessible == total
    ensures pct == 0.0 <==> accessible == 0
  {
    (accessible as real / total as real) * 100.0
  }

  /**
   * The cache half of the verdict, from what `redis_client.get` returned:
   * true when there is no entry or it has no truthy `cache_timestamp`,
   * otherwise whether its age is at most the TTL.
   */
  function CacheHealthy(entry: Option<Payload>, now: int): bool {
    match entry
    case None => true
    case Some(p) =>
      match p.Stamp()
      case None => true
      case Some(t) => now - t <= CacheTtl
  }

  /** The JSON body and status code `/readyz` answers with. */
  datatype Readiness = Readiness(code: int, status: string, boxesAccessible: nat, totalBoxes: nat, cacheStatus: string)

  /**
   * The two response branches at the end of `readyz`: unhealthy only when
   * at most half the boxes are accessible and the cache is stale as well.
   * The unhealthy branch always reports the cache as stale.
   */
  function Verdict(accessible: nat, total: nat, cacheHealthy: bool): (r: Readiness)
    ensures r.code == 503 <==> 2 * accessible <= total && !cacheHealthy
    ensures r.code == 200 <==> 2 * accessible > total || cacheHealthy
    ensures r.status == (if r.code == 503 then "unhealthy" else "healthy")
    ensures r.code == 503 ==> r.cacheStatus == "stale"
    ensures r.cacheStatus == (if cacheHealthy then "fresh" else "stale")
    ensures r.boxesAccessible == accessible && r.totalBoxes == total
  {
    var boxesHealthy := accessible >= BoxesThreshold(total);
    if !boxesHealthy && !cacheHealthy then
      Readiness(503, "unhealthy", accessible, total, if !cacheHealthy then "stale" else "fresh")
    else
      Readiness(200, "healthy", accessible, total, if cacheHealthy then "fresh" else "stale")
  }

  /** `accessible_boxes` after the one fetch in `check_senseboxes_health`. */
  function Accessible(data: Option<Payload>): nat {
    if data.Some? && data.value.Truthy() then 1 else 0
  }

  /**
   * The health fetch finds the box accessible exactly when the store held a
   * readable non-empty document, or the key missed and upstream answered
   * (the stamped answer is never empty); otherwise the count is 0.
   */
  lemma AccessibleIff(c: Cache, boxId: string, now: int, upstream: Option<Payload>)
    ensures var hit := Get(c, CacheKey(boxId), now);
            Accessible(FetchSpec(c, boxId, now, upstream).data) == 1 <==>
              (hit.Some? && hit.value.Truthy()) || (hit.None? && upstream.Some?)
    ensures Accessible(FetchSpec(c, boxId, now, upstream).data) <= TotalBoxes
  {
  }

  /**
   * One `/readyz` request against store `c`: the health fetch runs at `now`,
   * and the second cache read and its age computation happen at `later`.
   */
  function ReadySpec(c: Cache, now: int, later: int, upstream: Option<Payload>): Readiness {
    var f := FetchSpec(c, TargetId, now, upstream);
    var accessible := Accessible(f.data);
    Verdict(accessible, TotalBoxes, CacheHealthy(Get(f.cache, CacheKey(TargetId), later), later))
  }

  /**
   * With a single box and nothing else writing the store between the two
   * reads, `/readyz` always answers healthy: an entry that is readable at
   * the fetch yields a reachable box unless the stored document is empty
   * (an empty document has no stamp either), and an entry
   * that is not readable stays unreadable, which counts as a healthy cache.
   */
  lemma SingleBoxAlwaysReady(c: Cache, now: int, later: int, upstream: Option<Payload>)
    requires now <= later
    ensures ReadySpec(c, now, later, upstream).code == 200
    ensures ReadySpec(c, now, later, upstream).status == "healthy"
  {
  }

  /**
   * Upstream down and nothing cached: the box counts as unreachable, yet the
   * missing entry counts as a healthy cache, so the verdict is 200.
   */
  lemma ReadyWithUpstreamDownAndEmptyCache(now: int, later: int)
    ensures ReadySpec(map[], now, later, None) == Readiness(200, "healthy", 0, 1, "fresh")
  {
  }

  /**
   * The verdict is 503 only when both halves fail: an unreachable box and a
   * readable entry whose stamp is older than the TTL.
   */
  lemma ReadyUnhealthyIff(c: Cache, now: int, later: int, upstream: Option<Payload>)
    ensures var f := FetchSpec(c, TargetId, now, upstream);
            var e := Get(f.cache, CacheKey(TargetId), later);
            ReadySpec(c, now, later, upstream).code == 503 <==>
              && Accessible(f.data) == 0
              && e.Some? && e.value.Stamp().Some? && later - e.value.Stamp().value > CacheTtl
  {
  }
}
