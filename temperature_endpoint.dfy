/**
 * The decision tree of `/temperature`: from the fetched document and the
 * clock to a status code with a message, or the served reading.
 * `datetime.strptime` and `float()` are abstract parsers.
 */
module TemperatureEndpoint {
  import opened Wrappers
  import opened SensorData
  import opened TemperatureStatus

  /** The `title` of the sensor the endpoint looks for. */
  const TemperatureTitle: string := "Temperatur"

  /** `timedelta(hours=1)` in seconds. */
  const MaxMeasurementAge: int := 3600

  /**
   * `timestamp` parses a `createdAt` string with format
   * `%Y-%m-%dT%H:%M:%S.%fZ` into whole seconds since the epoch (UTC);
   * `number` is `float()` on the measured value. None stands for ValueError.
   */
  datatype Parsers = Parsers(timestamp: string -> Option<int>, number: string -> Option<real>)

  /** The plain-text error replies of the endpoint. */
  datatype Failure =
    | FetchFailed
    | NoMeasurement
    | InvalidMeasurement
    | InvalidTimestamp
    | Stale
    | SensorNotFound
    | Internal
  {
    function Code(): int {
      match this
      case FetchFailed => 503
      case NoMeasurement => 404
      case InvalidMeasurement => 500
      case InvalidTimestamp => 500
      case Stale => 404
      case SensorNotFound => 404
      case Internal => 500
    }

    function Message(): string {
      match this
      case FetchFailed => "Error fetching sensor data"
      case NoMeasurement => "No temperature measurements available"
      case InvalidMeasurement => "Invalid measurement data"
      case InvalidTimestamp => "Invalid timestamp format"
      case Stale => "Data exceeds 1 hour threshold"
      case SensorNotFound => "Temperature sensor not found"
      case Internal => "Internal server error"
    }
  }

  /**
   * The outcome of one request. `Served` carries the JSON members
   * `temperature` (the value string as received), `status` and `timestamp`
   * (the `createdAt` string as received), and `celsius`, the parsed value
   * that the last-temperature gauge receives.
   */
  datatype Outcome =
    | Served(temperature: string, status: Status, timestamp: string, celsius: real)
    | Failed(failure: Failure)
  {
    function Code(): int {
      match this
      case Served(_, _, _, _) => 200
      case Failed(e) => e.Code()
    }
  }

  /**
   * The body of the loop once the first `Temperatur` sensor is found.
   * Both parses sit in one `try` whose handler answers "Invalid timestamp
   * format", so an unparseable value gets that answer too, but only after
   * the staleness check has passed.
   */
  function Examine(m: Option<Measurement>, now: int, parse: Parsers): Outcome {
    if m.None? || !m.value.NonEmpty() then Failed(NoMeasurement)
    else if !m.value.value.Truthy() || !m.value.createdAt.Truthy() then Failed(InvalidMeasurement)
    else
      var value, stamp := m.value.value.s, m.value.createdAt.s;
      match parse.timestamp(stamp)
      case None => Failed(InvalidTimestamp)
      case Some(measured) =>
        if now - measured > MaxMeasurementAge then Failed(Stale)
        else
          match parse.number(value)
          case None => Failed(InvalidTimestamp)
          case Some(t) => Served(value, Classify(t), stamp, t)
  }

  /**
   * `for sensor in sensors: if sensor["title"] == "Temperatur": ...` and the
   * reply after the loop. A sensor without a `title` member raises KeyError,
   * which the outer handler turns into "Internal server error".
   */
  function Scan(sensors: seq<Sensor>, now: int, parse: Parsers): Outcome
    decreases |sensors|
  {
    if sensors == [] then Failed(SensorNotFound)
    else if sensors[0].title == Absent then Failed(Internal)
    else if sensors[0].title == Str(TemperatureTitle) then Examine(sensors[0].lastMeasurement, now, parse)
    else Scan(sensors[1..], now, parse)
  }

  /** The whole `temperature()` handler after the fetch. */
  function Decide(data: Option<Payload>, now: int, parse: Parsers): Outcome {
    if data.None? || !data.value.Truthy() then Failed(FetchFailed)
    else Scan(data.value.SensorList(), now, parse)
  }

  /** The loop of the handler, scanning `sensors` in order and leaving at the first match. */
  method ScanSensors(sensors: seq<Sensor>, now: int, parse: Parsers) returns (r: Outcome)
    ensures r == Scan(sensors, now, parse)
  {
    var i := 0;
    while i < |sensors|
      invariant 0 <= i <= |sensors|
      invariant Scan(sensors[i..], now, parse) == Scan(sensors, now, parse)
    {
      var sensor := sensors[i];
      assert sensors[i..][1..] == sensors[i + 1..];
      if sensor.title == Absent {
        return Failed(Internal);
      }
      if sensor.title == Str(TemperatureTitle) {
        return Examine(sensor.lastMeasurement, now, parse);
      }
      i := i + 1;
    }
    return Failed(SensorNotFound);
  }

  /** Sensor `k` is the first `Temperatur` sensor and every earlier one has a title. */
  ghost predicate FirstMatchAt(sensors: seq<Sensor>, k: nat) {
    && k < |sensors|
    && sensors[k].title == Str(TemperatureTitle)
    && forall j :: 0 <= j < k ==> sensors[j].title != Absent && sensors[j].title != Str(TemperatureTitle)
  }

  /** Only the first `Temperatur` sensor is examined: later sensors do not matter. */
  lemma {:induction false} ScanExaminesFirstMatch(sensors: seq<Sensor>, k: nat, now: int, parse: Parsers)
    requires FirstMatchAt(sensors, k)
    ensures Scan(sensors, now, parse) == Examine(sensors[k].lastMeasurement, now, parse)
    decreases k
  {
    if k > 0 {
      assert sensors[0].title != Absent && sensors[0].title != Str(TemperatureTitle);
      assert FirstMatchAt(sensors[1..], k - 1) by {
        forall j | 0 <= j < k - 1
          ensures sensors[1..][j].title != Absent && sensors[1..][j].title != Str(TemperatureTitle)
        {
          assert sensors[1..][j] == sensors[j + 1];
        }
      }
      ScanExaminesFirstMatch(sensors[1..], k - 1, now, parse);
    }
  }

  /** "Temperature sensor not found" is answered exactly when every sensor has a title and none is `Temperatur`. */
  lemma {:induction false} ScanNotFoundIff(sensors: seq<Sensor>, now: int, parse: Parsers)
    ensures Scan(sensors, now, parse) == Failed(SensorNotFound) <==>
            forall j :: 0 <= j < |sensors| ==> sensors[j].title != Absent && sensors[j].title != Str(TemperatureTitle)
    decreases |sensors|
  {
    if sensors != [] {
      ScanNotFoundIff(sensors[1..], now, parse);
      assert forall j :: 1 <= j < |sensors| ==> sensors[j] == sensors[1..][j - 1];
      ExamineNeverNotFound(sensors[0].lastMeasurement, now, parse);
    }
  }

  /** The reply after the loop and the fetch failure are never produced by the loop body. */
  lemma ExamineNeverNotFound(m: Option<Measurement>, now: int, parse: Parsers)
    ensures Examine(m, now, parse) != Failed(SensorNotFound)
    ensures Examine(m, now, parse) != Failed(FetchFailed)
    ensures Examine(m, now, parse) != Failed(Internal)
  {
  }

  /** The scan never answers as if the fetch had failed. */
  lemma {:induction false} ScanNeverFetchFailed(sensors: seq<Sensor>, now: int, parse: Parsers)
    ensures Scan(sensors, now, parse) != Failed(FetchFailed)
    decreases |sensors|
  {
    if sensors != [] {
      ScanNeverFetchFailed(sensors[1..], now, parse);
      ExamineNeverNotFound(sensors[0].lastMeasurement, now, parse);
    }
  }

  /** 503 "Error fetching sensor data" exactly when the fetch returned None or an empty document. */
  lemma DecideFetchFailedIff(data: Option<Payload>, now: int, parse: Parsers)
    ensures Decide(data, now, parse) == Failed(FetchFailed) <==> data.None? || !data.value.Truthy()
  {
    if data.Some? && data.value.Truthy() {
      ScanNeverFetchFailed(data.value.SensorList(), now, parse);
    }
  }

  /** A measurement with a truthy value and `createdAt` whose timestamp parses. */
  ghost predicate WellFormed(m: Option<Measurement>, parse: Parsers) {
    && m.Some? && m.value.value.Truthy() && m.value.createdAt.Truthy()
    && parse.timestamp(m.value.createdAt.s).Some?
  }

  /**
   * Staleness is strict: a well-formed measurement is rejected as stale
   * exactly when it is more than one hour old, so exactly 3600 seconds and
   * timestamps in the future pass.
   */
  lemma ExamineStaleIff(m: Option<Measurement>, now: int, parse: Parsers)
    requires WellFormed(m, parse)
    ensures Examine(m, now, parse) == Failed(Stale) <==>
            now - parse.timestamp(m.value.createdAt.s).value > MaxMeasurementAge
  {
  }

  /**
   * A served reading echoes the received value and timestamp strings, is no
   * older than one hour, and its status is the classification of the parsed
   * value; conversely every fresh, parseable measurement is served.
   */
  lemma ExamineServedIff(m: Option<Measurement>, now: int, parse: Parsers)
    ensures Examine(m, now, parse).Served? <==>
            && WellFormed(m, parse)
            && now - parse.timestamp(m.value.createdAt.s).value <= MaxMeasurementAge
            && parse.number(m.value.value.s).Some?
    ensures Examine(m, now, parse).Served? ==>
            var r := Examine(m, now, parse);
            && m.value.value == Str(r.temperature)
            && m.value.createdAt == Str(r.timestamp)
            && parse.number(r.temperature) == Some(r.celsius)
            && r.status == Classify(r.celsius)
  {
  }

  /**
   * An unparseable value in an otherwise fresh measurement is answered
   * with the timestamp error, because both parses share one handler.
   */
  lemma ExamineValueParseQuirk(m: Option<Measurement>, now: int, parse: Parsers)
    requires WellFormed(m, parse)
    requires now - parse.timestamp(m.value.createdAt.s).value <= MaxMeasurementAge
    requires parse.number(m.value.value.s).None?
    ensures Examine(m, now, parse) == Failed(InvalidTimestamp)
    ensures Examine(m, now, parse).Failed? && Examine(m, now, parse).failure.Message() == "Invalid timestamp format"
  {
  }

  /**
   * 500 "Invalid timestamp format" is answered exactly for a measurement
   * with a truthy value and `createdAt` whose timestamp does not parse, or
   * whose timestamp parses, is at most one hour old, and whose value does
   * not parse.
   */
  lemma ExamineInvalidTimestampIff(m: Option<Measurement>, now: int, parse: Parsers)
    ensures Examine(m, now, parse) == Failed(InvalidTimestamp) <==>
            && m.Some? && m.value.value.Truthy() && m.value.createdAt.Truthy()
            && (|| parse.timestamp(m.value.createdAt.s).None?
                || (&& now - parse.timestamp(m.value.createdAt.s).value <= MaxMeasurementAge
                    && parse.number(m.value.value.s).None?))
  {
  }

  /** A missing, null or empty `lastMeasurement` is 404; a falsy value or `createdAt` is 500. */
  lemma ExamineMalformed(m: Option<Measurement>, now: int, parse: Parsers)
    ensures (m.None? || !m.value.NonEmpty()) <==> Examine(m, now, parse) == Failed(NoMeasurement)
    ensures m.Some? && m.value.NonEmpty() && (!m.value.value.Truthy() || !m.value.createdAt.Truthy()) <==>
            Examine(m, now, parse) == Failed(InvalidMeasurement)
  {
  }
}
