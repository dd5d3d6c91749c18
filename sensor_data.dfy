/**
 * The JSON document that the openSenseMap box endpoint returns, reduced to
 * the keys the service reads, together with Python's truthiness rules for
 * the values it tests with `if not ...`.
 */
module SensorData {
  import opened Wrappers

  /** A JSON object member as `dict.get` and `dict[...]` see it. */
  datatype Field = Absent | Null | Str(s: string) {

    /** Python truthiness of `dict.get(key)`: a non-empty string. */
    predicate Truthy() {
      Str? && s != ""
    }
  }

  /**
   * A sensor's `lastMeasurement` object. `otherKeys` records whether the
   * object holds any member besides `value` and `createdAt`.
   */
  datatype Measurement = Measurement(value: Field, createdAt: Field, otherKeys: bool) {

    /** Python truthiness of the dictionary: it has at least one member. */
    predicate NonEmpty() {
      value != Absent || createdAt != Absent || otherKeys
    }
  }

  /**
   * One element of the `sensors` array. `lastMeasurement` is None when the
   * member is missing or null.
   */
  datatype Sensor = Sensor(title: Field, lastMeasurement: Option<Measurement>)

  /**
   * The box document. `sensors` is None when the member is missing;
   * `cacheTimestamp` is the `cache_timestamp` member the fetcher adds, in
   * whole seconds since the epoch; `otherKeys` records any other member.
   */
  datatype Payload = Payload(sensors: Option<seq<Sensor>>, cacheTimestamp: Option<int>, otherKeys: bool) {

    /** Python truthiness of the dictionary: it has at least one member. */
    predicate Truthy() {
      sensors.Some? || cacheTimestamp.Some? || otherKeys
    }

    /** `data.get("sensors", [])`. */
    function SensorList(): seq<Sensor> {
      sensors.GetOr([])
    }

    /**
     * `cache_time = data.get("cache_timestamp")` followed by `if cache_time:`:
     * the stamp, unless it is missing or the falsy value 0.
     */
    function Stamp(): Option<int> {
      match cacheTimestamp
      case Some(t) => if t != 0 then Some(t) else None
      case None => None
    }

    /** The document with `data["cache_timestamp"] = now` applied. */
    function Stamped(now: int): (p: Payload)
      ensures p.Truthy()
      ensures p.cacheTimestamp == Some(now)
      ensures p.sensors == sensors && p.otherKeys == otherKeys
    {
      this.(cacheTimestamp := Some(now))
    }
  }
}
