/**
 * Shaping the decoded air-quality response into a series (get_air_quality_data).
 * The HTTP request and the JSON decoding are outside the model: their outcome is
 * the `Response` value, and parsing of each time text is given as its outcome.
 */
module Fetch {
  import opened Wrappers
  import opened Readings

  /**
   * The `hourly` object of the response: three parallel arrays, each of which may
   * be missing. An entry of `time` is the parsed timestamp, or None when that text
   * is not a date-time.
   */
  datatype Hourly = Hourly(
    time: Option<seq<Option<Timestamp>>>,
    carbonDioxide: Option<seq<real>>,
    methane: Option<seq<real>>)

  /** The request either failed (transport error, timeout, undecodable body) or gave a JSON object. */
  datatype Response = Failed | Body(hourly: Option<Hourly>)

  /** Parse every time text; one unparseable entry makes the whole parse fail. */
  function ParseTimes(texts: seq<Option<Timestamp>>): (r: Option<seq<Timestamp>>)
    ensures r.Some? <==> forall i :: 0 <= i < |texts| ==> texts[i].Some?
    ensures r.Some? ==> |r.value| == |texts|
    ensures r.Some? ==> forall i :: 0 <= i < |texts| ==> r.value[i] == texts[i].value
  {
    if texts == [] then Some([])
    else
      match (texts[0], ParseTimes(texts[1..]))
      case (Some(t), Some(ts)) => Some([t] + ts)
      case _ => None
  }

  /** Build the data frame from three columns of equal length, row by row. */
  function Zip(times: seq<Timestamp>, co2: seq<real>, ch4: seq<real>): (rows: Series)
    requires |times| == |co2| == |ch4|
    ensures |rows| == |times|
    ensures forall i :: 0 <= i < |rows| ==> rows[i] == Reading(times[i], co2[i], ch4[i])
  {
    if times == [] then []
    else [Reading(times[0], co2[0], ch4[0])] + Zip(times[1..], co2[1..], ch4[1..])
  }

  /** All that the shaping needs: `hourly` present, its three keys present, every time parsed, equal lengths. */
  predicate Shapeable(resp: Response)
  {
    && resp.Body?
    && resp.hourly.Some?
    && resp.hourly.value.time.Some?
    && resp.hourly.value.carbonDioxide.Some?
    && resp.hourly.value.methane.Some?
    && (forall i :: 0 <= i < |resp.hourly.value.time.value| ==> resp.hourly.value.time.value[i].Some?)
    && |resp.hourly.value.time.value| == |resp.hourly.value.carbonDioxide.value| == |resp.hourly.value.methane.value|
  }

  /**
   * The series built from a response. Every failure, whether the explicit check for
   * `hourly` or an exception caught by the handler, yields the empty series.
   */
  function GetAirQualityData(resp: Response): (rows: Series)
    ensures !Shapeable(resp) ==> rows == []
    ensures Shapeable(resp) ==>
      var h := resp.hourly.value;
      && |rows| == |h.time.value| == |h.carbonDioxide.value| == |h.methane.value|
      && forall i :: 0 <= i < |rows| ==>
           rows[i] == Reading(h.time.value[i].value, h.carbonDioxide.value[i], h.methane.value[i])
  {
    match resp
    case Failed => []
    case Body(None) => []
    case Body(Some(h)) =>
      if h.time.None? || h.carbonDioxide.None? || h.methane.None? then []
      else
        match ParseTimes(h.time.value)
        case None => []
        case Some(times) =>
          if |times| == |h.carbonDioxide.value| == |h.methane.value|
          then Zip(times, h.carbonDioxide.value, h.methane.value)
          else []
  }

  /** A response without the `hourly` object gives the empty series rather than an error. */
  lemma MissingHourlyIsEmpty()
    ensures GetAirQualityData(Body(None)) == []
  {
  }

  /** Arrays of unequal length are rejected as a whole, never truncated to the shorter one. */
  lemma UnequalLengthsAreEmpty(h: Hourly)
    requires h.time.Some? && h.carbonDioxide.Some? && h.methane.Some?
    requires |h.time.value| != |h.carbonDioxide.value| || |h.time.value| != |h.methane.value|
    ensures GetAirQualityData(Body(Some(h))) == []
  {
  }

  /** The response the upstream source would send for a given series: its three columns. */
  function Encode(rows: Series): (resp: Response)
  {
    Body(Some(Hourly(
      Some(seq(|rows|, i requires 0 <= i < |rows| => Some(rows[i].time))),
      Some(seq(|rows|, i requires 0 <= i < |rows| => rows[i].co2)),
      Some(seq(|rows|, i requires 0 <= i < |rows| => rows[i].ch4)))))
  }

  /** Shaping inverts Encode: every series survives the trip through the response's parallel arrays. */
  lemma ShapeEncodeRoundTrip(rows: Series)
    ensures Shapeable(Encode(rows))
    ensures GetAirQualityData(Encode(rows)) == rows
  {
    var r := GetAirQualityData(Encode(rows));
    assert |r| == |rows|;
    assert forall i :: 0 <= i < |r| ==> r[i] == rows[i];
  }
}
