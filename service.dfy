/**
 * The service's shared state: the Redis store and the Prometheus counter
 * and gauges, updated in place by the fetcher and the two endpoints.
 */
module Service {
  import opened Wrappers
  import opened SensorData
  import opened SensorCache
  import opened Health
  import opened TemperatureStatus
  import opened TemperatureEndpoint

  /** One `/temperature` request on store `c`: fetch, then decide. */
  function TemperatureSpec(c: Cache, now: int, upstream: Option<Payload>, parse: Parsers): Outcome {
    Decide(FetchSpec(c, TargetId, now, upstream).data, now, parse)
  }

  /** Every entry carries as `cache_timestamp` the second it was written. */
  ghost predicate StampedAtWrite(c: Cache) {
    forall k :: k in c ==> c[k].payload.cacheTimestamp == Some(c[k].writtenAt)
  }

  /** The fetcher keeps the stamps it writes in step with the write times. */
  lemma FetchKeepsStamps(c: Cache, boxId: string, now: int, upstream: Option<Payload>)
    requires StampedAtWrite(c)
    ensures StampedAtWrite(FetchSpec(c, boxId, now, upstream).cache)
  {
  }

  /**
   * In a store written only by this fetcher, a readable entry is never
   * stale for the readiness check and its age gauge is within the TTL.
   */
  lemma ReadableStampedEntryIsFresh(c: Cache, key: string, now: int)
    requires StampedAtWrite(c)
    requires Get(c, key, now).Some?
    ensures CacheHealthy(Get(c, key, now), now)
    ensures Get(c, key, now).value.Stamp().Some? ==> now - Get(c, key, now).value.Stamp().value <= CacheTtl
  {
  }

  class BeekeepingService {
    /** The Redis store. */
    var cache: Cache
    /** `beekeeping_api_request_count`. */
    var requestCount: nat
    /** `beekeeping_api_last_temperature`. */
    var lastTemperature: real
    /** `beekeeping_api_cache_age_seconds`. */
    var cacheAge: int
    /** `beekeeping_api_sensebox_availability`. */
    var availability: real

    /** A fresh process over an existing store; every metric starts at zero. */
    constructor (store: Cache)
      ensures cache == store
      ensures requestCount == 0 && lastTemperature == 0.0 && cacheAge == 0 && availability == 0.0
    {
      cache := store;
      requestCount := 0;
      lastTemperature := 0.0;
      cacheAge := 0;
      availability := 0.0;
    }

    /** `fetch_sensor_data(box_id)`. */
    method FetchSensorData(boxId: string, now: int, upstream: Option<Payload>) returns (data: Option<Payload>)
      modifies this`cache, this`cacheAge
      ensures var f := FetchSpec(old(cache), boxId, now, upstream);
              data == f.data && cache == f.cache && cacheAge == f.ageGauge.GetOr(old(cacheAge))
    {
      var key := CacheKey(boxId);
      var cached := Get(cache, key, now);
      if cached.Some? {
        var cacheTime := cached.value.Stamp();
        if cacheTime.Some? {
          cacheAge := now - cacheTime.value;
        }
        return cached;
      }
      if upstream.None? {
        return None;
      }
      var fetched := upstream.value.Stamped(now);
      cache := cache[key := Entry(fetched, now)];
      cacheAge := 0;
      return Some(fetched);
    }

    /** `check_senseboxes_health()`: one fetch of the target box, then the availability gauge. */
    method CheckSenseboxesHealth(now: int, upstream: Option<Payload>) returns (accessible: nat, total: nat)
      modifies this`cache, this`cacheAge, this`availability
      ensures var f := FetchSpec(old(cache), TargetId, now, upstream);
              && cache == f.cache && cacheAge == f.ageGauge.GetOr(old(cacheAge))
              && accessible == Accessible(f.data) && total == TotalBoxes
      ensures availability == Availability(accessible, total)
      ensures availability == (if accessible == 1 then 100.0 else 0.0)
    {
      total := TotalBoxes;
      accessible := 0;
      var data := FetchSensorData(TargetId, now, upstream);
      if data.Some? && data.value.Truthy() {
        accessible := accessible + 1;
      }
      availability := Availability(accessible, total);
    }

    /**
     * `readyz()`: the health check at `now`, then a second read of the
     * target's entry and its age at `later`.
     */
    method Readyz(now: int, later: int, upstream: Option<Payload>) returns (r: Readiness)
      modifies this`cache, this`cacheAge, this`availability
      ensures r == ReadySpec(old(cache), now, later, upstream)
      ensures cache == FetchSpec(old(cache), TargetId, now, upstream).cache
      ensures cacheAge == FetchSpec(old(cache), TargetId, now, upstream).ageGauge.GetOr(old(cacheAge))
      ensures availability == (if r.boxesAccessible == 1 then 100.0 else 0.0)
      ensures now <= later ==> r.code == 200
    {
      var accessible, total := CheckSenseboxesHealth(now, upstream);
      var healthy := CacheHealthy(Get(cache, CacheKey(TargetId), later), later);
      r := Verdict(accessible, total, healthy);
      if now <= later {
        SingleBoxAlwaysReady(old(cache), now, later, upstream);
      }
    }

    /**
     * `temperature()`: fetch, scan the sensors, and on a served reading
     * count the request and record the temperature. No other reply touches
     * the counter or the last-temperature gauge.
     */
    method Temperature(now: int, upstream: Option<Payload>, parse: Parsers) returns (reply: Outcome)
      modifies this`cache, this`cacheAge, this`requestCount, this`lastTemperature
      ensures reply == TemperatureSpec(old(cache), now, upstream, parse)
      ensures cache == FetchSpec(old(cache), TargetId, now, upstream).cache
      ensures cacheAge == FetchSpec(old(cache), TargetId, now, upstream).ageGauge.GetOr(old(cacheAge))
      ensures reply.Served? ==> requestCount == old(requestCount) + 1 && lastTemperature == reply.celsius
      ensures reply.Failed? ==> requestCount == old(requestCount) && lastTemperature == old(lastTemperature)
    {
      var data := FetchSensorData(TargetId, now, upstream);
      if data.None? || !data.value.Truthy() {
        return Failed(FetchFailed);
      }
      reply := ScanSensors(data.value.SensorList(), now, parse);
      if reply.Served? {
        requestCount := requestCount + 1;
        lastTemperature := reply.celsius;
      }
    }
  }

  /** The sensor document of the unit tests: one `Temperatur` sensor with one measurement. */
  function TestDocument(value: string, createdAt: string): Payload {
    Payload(Some([Sensor(Str(TemperatureTitle), Some(Measurement(Str(value), Str(createdAt), false)))]), None, false)
  }

  /** Upstream fails and nothing is cached: 503 "Error fetching sensor data". */
  lemma ScenarioUpstreamError(now: int, parse: Parsers)
    ensures TemperatureSpec(map[], now, None, parse).Code() == 503
    ensures TemperatureSpec(map[], now, None, parse) == Failed(FetchFailed)
    ensures FetchFailed.Message() == "Error fetching sensor data"
  {
  }

  /** A measurement two hours old: 404 "Data exceeds 1 hour threshold". */
  lemma ScenarioOldData(now: int, value: string, createdAt: string, parse: Parsers)
    requires value != "" && createdAt != ""
    requires parse.timestamp(createdAt) == Some(now - 7200)
    ensures TemperatureSpec(map[], now, Some(TestDocument(value, createdAt)), parse) == Failed(Stale)
    ensures Stale.Code() == 404 && Stale.Message() == "Data exceeds 1 hour threshold"
  {
  }

  /** A current measurement of "25.5": served with status Good. */
  lemma ScenarioSuccess(now: int, createdAt: string, parse: Parsers)
    requires createdAt != ""
    requires parse.timestamp(createdAt) == Some(now)
    requires parse.number("25.5") == Some(25.5)
    ensures TemperatureSpec(map[], now, Some(TestDocument("25.5", createdAt)), parse) ==
            Served("25.5", Good, createdAt, 25.5)
  {
  }

  /** `{"sensors": []}`: 404 "Temperature sensor not found". */
  lemma ScenarioMissingSensor(now: int, parse: Parsers)
    ensures TemperatureSpec(map[], now, Some(Payload(Some([]), None, false)), parse) == Failed(SensorNotFound)
    ensures SensorNotFound.Code() == 404 && SensorNotFound.Message() == "Temperature sensor not found"
  {
  }

  /** `"lastMeasurement": null`: 404 "No temperature measurements available". */
  lemma ScenarioNullMeasurement(now: int, parse: Parsers)
    ensures var doc := Payload(Some([Sensor(Str(TemperatureTitle), None)]), None, false);
            TemperatureSpec(map[], now, Some(doc), parse) == Failed(NoMeasurement)
    ensures NoMeasurement.Code() == 404 && NoMeasurement.Message() == "No temperature measurements available"
  {
  }
}
