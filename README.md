# Beekeeping temperature service: decision core in Dafny

This project models the decision logic of the openSenseMap beekeeping API
(`main.py`): the three-band temperature classifier, the Redis-backed cached
fetch of the sensor box document, the readiness verdict of `/readyz`, and
the decision tree of `/temperature`. Flask, Redis, MinIO, Prometheus and the
HTTP client are abstracted away; what they contribute becomes values:

- the Redis store is a `map<string, Entry>` holding, per key, the document
  itself and the second it was written (`SensorCache`); every write is
  `SETEX key 300`, and a key is readable while `now - writtenAt <= 300`
  (the store treats a key as expired once the current time is past its
  expiry instant);
- the clock is an explicit `now: int` in whole seconds; `/readyz` reads it
  twice (once in the health fetch, once when it computes the cache age), so
  its method takes `now` and `later`;
- the upstream HTTP answer is an `Option<Payload>` (None for any request
  failure);
- `datetime.strptime(..., "%Y-%m-%dT%H:%M:%S.%fZ")` and `float()` are the
  two abstract parsers of `TemperatureEndpoint.Parsers`, each returning None
  for a ValueError;
- the request counter and the last-temperature, cache-age and availability
  gauges are plain fields of `Service.BeekeepingService`.

Python truthiness is modelled where the code tests it: an empty document
(`if not data`), an empty `lastMeasurement`, an empty or missing `value` or
`createdAt`, and a `cache_timestamp` of 0 (treated as absent by
`if cache_time:`). A sensor without a `title` member raises KeyError, which
the endpoint's outer handler answers with 500 "Internal server error"; the
model keeps that outcome.

Modules, leaves first: `Wrappers` (Option), `SensorData` (the JSON
document), `TemperatureStatus`, `SensorCache` (the fetch as a function of
the store), `Health` (readiness), `TemperatureEndpoint` (the decision tree
as functions, and the sensor loop as a method proved equal to them),
`Service` (the class that applies all of it in place, and the unit-test
scenarios).

Three behaviours of the code shape the model:

- A missing cache entry, or one without a truthy `cache_timestamp`, counts
  as a healthy cache (main.py:268-275), and a readable entry makes the box
  reachable unless the stored document is empty (an empty document has
  no stamp either). So with the single configured box,
  `/readyz` always answers 200 (`Health.SingleBoxAlwaysReady`), even with
  upstream down and nothing cached
  (`Health.ReadyWithUpstreamDownAndEmptyCache`).
- The fetcher caches whatever document upstream returns (main.py:179-188).
  All validation of the `Temperatur` sensor and its measurement happens in
  `/temperature` (main.py:300-332).
- An unparseable measured value is answered with 500 "Invalid timestamp
  format", because `float(temp_value)` sits in the same `try` as the
  timestamp parse (main.py:312-332); it is reached only after the staleness
  check has passed.

## Model

| member | source | states |
|---|---|---|
| `TemperatureStatus.ClassifyBands` | main.py:149-156 | "Too Cold" exactly for t <= 10, "Good" exactly for 10 < t <= 36, "Too Hot" exactly for t > 36 |
| `TemperatureStatus.ClassifyBoundaries` | test_app.py:68-78 | 10 is "Too Cold", 36 is "Good", and the test table's 5, 25, 37, 40 land in their bands |
| `TemperatureStatus.ClassifyMonotone` | main.py:149-156 | a warmer temperature never gets a colder band |
| `TemperatureStatus.LabelsDistinct` | main.py:151-156 | the three status strings are distinct, so the string identifies the band |
| `SensorData.Payload.Stamped` | main.py:181-182 | adding `cache_timestamp = now` keeps every other member and makes the document non-empty |
| `SensorCache.FetchSpec` | main.py:158-194 | hit: the stored document, store unchanged, gauge set to the stamp's age; miss with an answer: the answer stamped with now, written under the key with write time now (so it expires 300 s later) and readable back, no other key changed, gauge 0; miss without an answer: None, store and gauge unchanged |
| `SensorCache.FetchTouchesOnlyItsKey` | main.py:184-188 | a fetch never adds, removes or changes any key other than its own |
| `SensorCache.FetchThenHit` | main.py:160-191 | after a fetch that wrote a document, a fetch within the TTL returns that same document whatever upstream answers, changes nothing, and sets the age gauge to the elapsed seconds |
| `SensorCache.FetchThenExpire` | main.py:184-188 | the entry a fetch writes expires after 300 s: later than that the key is unreadable and the next fetch returns upstream's answer stamped with the new time, or None |
| `SensorCache.FailedFetchLeavesMiss` | main.py:192-194 | a miss followed by an upstream failure returns None and the key stays unreadable |
| `SensorCache.MissStaysMiss` | main.py:184-188 | an unreadable key stays unreadable as time goes on |
| `Health.ThresholdIsStrictMajority` | main.py:262-264 | `accessible >= total // 2 + 1` holds exactly when more than half the boxes are accessible |
| `Health.Availability` | main.py:205-206 | the availability percentage lies in 0..100, is 100 exactly when all boxes are accessible and 0 exactly when none is |
| `Health.AccessibleIff` | main.py:199-203 | the health fetch finds the box accessible exactly when the store held a readable non-empty document, or the key missed and upstream answered; the count never exceeds the one configured box |
| `Health.Verdict` | main.py:262-290 | 503 "unhealthy" exactly when at most half the boxes are accessible and the cache is stale, 200 "healthy" otherwise; the unhealthy reply always reports the cache as "stale", and "fresh" is reported exactly for a healthy cache |
| `Health.SingleBoxAlwaysReady` | main.py:257-290 | with one box and no other writer between the two reads (clock not going back), `/readyz` always answers 200 "healthy" |
| `Health.ReadyWithUpstreamDownAndEmptyCache` | main.py:266-283 | upstream down and empty store: 0 boxes accessible, cache "fresh", verdict 200 |
| `Health.ReadyUnhealthyIff` | main.py:260-283 | the whole request answers 503 exactly when the box is unreachable and the entry read second has a stamp older than the TTL |
| `TemperatureEndpoint.ScanSensors` | main.py:300-334 | the sensor loop returns exactly the reference decision `Scan` for every sensor list |
| `TemperatureEndpoint.ScanExaminesFirstMatch` | main.py:300-302 | the reply depends only on the first `Temperatur` sensor when every earlier sensor has a title |
| `TemperatureEndpoint.ScanNotFoundIff` | main.py:300-334 | 404 "Temperature sensor not found" exactly when every sensor has a title and none is `Temperatur` |
| `TemperatureEndpoint.ExamineNeverNotFound` | main.py:302-332 | examining the matched sensor never yields the not-found, fetch-failure or internal-error replies |
| `TemperatureEndpoint.ScanNeverFetchFailed` | main.py:300-334 | the loop never yields the fetch-failure reply |
| `TemperatureEndpoint.DecideFetchFailedIff` | main.py:296-298 | 503 "Error fetching sensor data" exactly when the fetch returned None or an empty document |
| `TemperatureEndpoint.ExamineMalformed` | main.py:302-310 | missing, null or empty `lastMeasurement` exactly gives 404; otherwise a falsy value or `createdAt` exactly gives 500 "Invalid measurement data" |
| `TemperatureEndpoint.ExamineStaleIff` | main.py:312-317 | a well-formed measurement is rejected as stale exactly when it is more than 3600 s old (3600 s and future times pass) |
| `TemperatureEndpoint.ExamineServedIff` | main.py:312-329 | served exactly when well-formed, at most one hour old and the value parses; the reply echoes the value and timestamp strings and its status is the classification of the parsed value |
| `TemperatureEndpoint.ExamineInvalidTimestampIff` | main.py:309-332 | 500 "Invalid timestamp format" exactly when value and `createdAt` are truthy and either the timestamp does not parse, or it parses, is at most one hour old and the value does not parse |
| `TemperatureEndpoint.ExamineValueParseQuirk` | main.py:312-332 | a fresh measurement whose value does not parse gets 500 "Invalid timestamp format" |
| `Service.FetchKeepsStamps` | main.py:181-188 | if every entry's stamp equals its write time, it still does after a fetch |
| `Service.ReadableStampedEntryIsFresh` | main.py:266-275 | in a store written only by the fetcher, a readable entry is a healthy cache and its age is at most the TTL |
| `Service.BeekeepingService.constructor` | main.py:73-108 | the counter and every gauge start at zero over the given store |
| `Service.BeekeepingService.FetchSensorData` | main.py:158-194 | returns the document, new store and age gauge that `FetchSpec` gives for the old store |
| `Service.BeekeepingService.CheckSenseboxesHealth` | main.py:196-208 | one fetch; accessible is 1 exactly for a non-empty document, total is 1, the availability gauge is 100 or 0 accordingly |
| `Service.BeekeepingService.Readyz` | main.py:257-290 | answers `ReadySpec` of the old store, leaves the store and the cache-age gauge as the health fetch sets them, sets availability to 100 or 0 as the box was accessible, and answers 200 whenever the second clock reading is not earlier than the first |
| `Service.BeekeepingService.Temperature` | main.py:292-337 | answers the decision for the fetched document and leaves the store and cache-age gauge as the fetch sets them; a served reading increments the request counter by one and sets the last temperature to the parsed value; every other reply leaves both alone |
| `Service.ScenarioUpstreamError` | test_app.py:109-116 | upstream failure with an empty store answers 503 "Error fetching sensor data" |
| `Service.ScenarioOldData` | test_app.py:94-107 | a measurement two hours old answers 404 "Data exceeds 1 hour threshold" |
| `Service.ScenarioSuccess` | test_app.py:80-92 | a current "25.5" reading is served with status Good and the original strings |
| `Service.ScenarioMissingSensor` | test_app.py:125-134 | `{"sensors": []}` answers 404 "Temperature sensor not found" |
| `Service.ScenarioNullMeasurement` | test_app.py:136-150 | a null `lastMeasurement` answers 404 "No temperature measurements available" |

## Left out

- `ensure_minio_bucket`, `store_temperature_data`, `/store` and the periodic `store_periodic_data` job: writes to the MinIO blob store, foreign I/O. Object names carry the time to the second, so two stores in the same second would write the same object name.
- `/`, `/version` and `main()`: constant responses and process start-up.
- The Prometheus registry, `/metrics` exposition, the `storage_operations` counter and the never-set `api_latency` gauge: only the counter and gauge values the core sets are kept.
- The APScheduler job and concurrent requests: the model runs one request at a time, so no other writer can touch the store between the two reads of `/readyz`.
- JSON (de)serialisation and the Redis client: the store holds documents directly; a failing Redis call (an exception the code does not catch in `fetch_sensor_data`) is not modelled.
- `requests.get`, `raise_for_status` and `response.json()`: one `Option<Payload>` answer per miss; a non-object JSON answer (on which adding `cache_timestamp` would raise) is not modelled.
- `datetime.strptime`, `float()` and `datetime.now`: abstract parsers and integer seconds, so sub-second differences in the one-hour and TTL comparisons are not modelled.
- `float()` results that are not finite (NaN, infinities) and numeric (non-string) JSON `value`s: the value is a string and its parse a real number.
- A `sensors` member that is present but null or not a list: `data.get("sensors", [])` is modelled for a missing member and for a list.
- The generic `except Exception` branch of `/temperature` is modelled only for its one reachable cause in the modelled document shape, a sensor without a `title` member.
- `Service.BeekeepingService.Temperature` reads the clock once for both the fetch and the staleness check, where the code calls `datetime.now` twice.
