/** The three-band temperature classifier (`get_temperature_status`). */
module TemperatureStatus {

  /** `TEMPERATURE_THRESHOLDS["cold"]` and `["hot"]`, in degrees Celsius. */
  const ColdThreshold: real := 10.0
  const HotThreshold: real := 36.0

  datatype Status = TooCold | Good | TooHot {

    /** The string the endpoint puts in the `status` member. */
    function Label(): string {
      match this
      case TooCold => "Too Cold"
      case Good => "Good"
      case TooHot => "Too Hot"
    }

    /** Position of the band on the temperature scale. */
    function Rank(): nat {
      match this
      case TooCold => 0
      case Good => 1
      case TooHot => 2
    }
  }

  /** The if/elif chain: cold is inclusive at 10, and 36 is still Good. */
  function Classify(t: real): Status {
    if t <= ColdThreshold then TooCold
    else if t <= HotThreshold then Good
    else TooHot
  }

  /** Each band is exactly the interval the thresholds describe. */
  lemma ClassifyBands(t: real)
    ensures Classify(t) == TooCold <==> t <= 10.0
    ensures Classify(t) == Good <==> 10.0 < t <= 36.0
    ensures Classify(t) == TooHot <==> 36.0 < t
  {
  }

  /** The boundary values and the rows of the parametrised unit test. */
  lemma ClassifyBoundaries()
    ensures Classify(10.0).Label() == "Too Cold"
    ensures Classify(36.0).Label() == "Good"
    ensures Classify(5.0) == TooCold && Classify(25.0) == Good
    ensures Classify(37.0) == TooHot && Classify(40.0) == TooHot
  {
  }

  /** A warmer reading never falls in a colder band. */
  lemma ClassifyMonotone(t: real, u: real)
    requires t <= u
    ensures Classify(t).Rank() <= Classify(u).Rank()
  {
  }

  /** The three labels are distinct, so the label determines the band. */
  lemma LabelsDistinct(a: Status, b: Status)
    ensures a.Label() == b.Label() <==> a == b
  {
  }
}
