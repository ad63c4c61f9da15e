/** `POST /predicted`: the coordinate check, and the post-processing of the
    upstream multi-day forecast into the per-day list and the per-day
    solar-output percentages. Temperatures are exact reals here. */
module Forecast {
  import opened Http

  /** One entry of the upstream `forecast.forecastday` list, reduced to the
      fields the handler reads. */
  datatype UpstreamDay = UpstreamDay(
    date: string,
    avgTempC: real,
    conditionText: string,
    maxWindKph: real,
    avgHumidity: real,
    minTempC: real,
    maxTempC: real)

  /** One entry of the `forecast` list the handler answers with. */
  datatype ForecastDay = ForecastDay(
    date: string,
    temp: real,
    condition: string,
    windSpeed: real,
    humidity: real,
    minTemp: real,
    maxTemp: real)

  /** The upstream weather call: its list of forecast days, or any failure
      (network error, non-2xx answer, a payload without the expected fields). */
  datatype WeatherFetch = Fetched(days: seq<UpstreamDay>) | FetchFailed

  /** The answers `/predicted` can give. The location and current-conditions
      parts of a report are not modelled. */
  datatype PredictedResponse =
    | Report(forecast: seq<ForecastDay>, output: seq<real>)  // 200
    | MissingCoordinates                                     // 400, "Latitude and longitude are required"
    | PredictionFailed                                       // 500, "An error occurred"

  function PredictedStatus(r: PredictedResponse): int
  {
    match r
    case Report(_, _) => StatusOk
    case MissingCoordinates => StatusBadRequest
    case PredictionFailed => StatusServerError
  }

  // ---------------------------------------------------------------------------
  // The heat penalty
  // ---------------------------------------------------------------------------

  /** The heat derating, in percentage points: half a point per degree
      above 25 degrees Celsius, never negative. */
  function HeatPenalty(avgTemp: real): real
  {
    var excess := (avgTemp - 25.0) * 0.5;
    if excess > 0.0 then excess else 0.0
  }

  /** Despite its name, the percentage of nominal output that REMAINS after the
      heat penalty. */
  function CalculateOutputReduction(avgTemp: real): (r: real)
    ensures r == 100.0 - HeatPenalty(avgTemp)
    ensures r <= 100.0
    ensures r == 100.0 <==> avgTemp <= 25.0
  {
    var reduction := if avgTemp > 25.0 then (avgTemp - 25.0) * 0.5 else 0.0;
    100.0 - reduction
  }

  /** Flat at 100 up to 25 degrees, then falling by half a point per degree. */
  lemma OutputReductionIsPiecewiseLinear(avgTemp: real)
    ensures avgTemp <= 25.0 ==> CalculateOutputReduction(avgTemp) == 100.0
    ensures avgTemp > 25.0 ==> CalculateOutputReduction(avgTemp) == 100.0 - (avgTemp - 25.0) * 0.5
  {
  }

  /** A hotter day never yields more output. */
  lemma OutputReductionNonIncreasing(t1: real, t2: real)
    requires t1 <= t2
    ensures CalculateOutputReduction(t2) <= CalculateOutputReduction(t1)
  {
  }

  /** Nothing clamps the result below: above 225 degrees it is negative. */
  lemma OutputReductionUnclamped(avgTemp: real)
    ensures CalculateOutputReduction(avgTemp) < 0.0 <==> avgTemp > 225.0
  {
  }

  /** Sample points: 30 degrees costs 2.5 points; 25 and 20 cost nothing. */
  lemma OutputReductionSamples()
    ensures CalculateOutputReduction(30.0) == 97.5
    ensures CalculateOutputReduction(25.0) == 100.0
    ensures CalculateOutputReduction(20.0) == 100.0
  {
  }

  // ---------------------------------------------------------------------------
  // The per-day projections
  // ---------------------------------------------------------------------------

  /** `forecastDays.map(day => calculateOutputReduction(day.day.avgtemp_c))` */
  function OutputReductions(days: seq<UpstreamDay>): (r: seq<real>)
    ensures |r| == |days|
    ensures forall i | 0 <= i < |days| :: r[i] == CalculateOutputReduction(days[i].avgTempC)
  {
    seq(|days|, i requires 0 <= i < |days| => CalculateOutputReduction(days[i].avgTempC))
  }

  /** The renaming of one upstream day into the answer's shape. */
  function ToForecastDay(d: UpstreamDay): (r: ForecastDay)
    ensures r.date == d.date && r.condition == d.conditionText
    ensures r.temp == d.avgTempC && r.minTemp == d.minTempC && r.maxTemp == d.maxTempC
    ensures r.windSpeed == d.maxWindKph && r.humidity == d.avgHumidity
  {
    ForecastDay(d.date, d.avgTempC, d.conditionText, d.maxWindKph, d.avgHumidity, d.minTempC, d.maxTempC)
  }

  /** `forecastDays.map(day => ({ date, temp, condition, ... }))` */
  function ForecastDays(days: seq<UpstreamDay>): (r: seq<ForecastDay>)
    ensures |r| == |days|
    ensures forall i | 0 <= i < |days| :: r[i] == ToForecastDay(days[i])
  {
    seq(|days|, i requires 0 <= i < |days| => ToForecastDay(days[i]))
  }

  /** The i-th output percentage belongs to the i-th forecast day: it is
      computed from that day's average temperature. */
  lemma OutputMatchesForecastDay(days: seq<UpstreamDay>, i: nat)
    requires i < |days|
    ensures i < |OutputReductions(days)| && i < |ForecastDays(days)|
    ensures OutputReductions(days)[i] == CalculateOutputReduction(ForecastDays(days)[i].temp)
    ensures ForecastDays(days)[i].date == days[i].date
  {
  }

  /** The projections keep order: the days of a longer horizon extend those
      of a shorter one. */
  lemma ProjectionsDistributeOverConcat(a: seq<UpstreamDay>, b: seq<UpstreamDay>)
    ensures OutputReductions(a + b) == OutputReductions(a) + OutputReductions(b)
    ensures ForecastDays(a + b) == ForecastDays(a) + ForecastDays(b)
  {
    var ab := a + b;
    forall i | 0 <= i < |ab|
      ensures OutputReductions(ab)[i] == (OutputReductions(a) + OutputReductions(b))[i]
      ensures ForecastDays(ab)[i] == (ForecastDays(a) + ForecastDays(b))[i]
    {
      if i >= |a| {
        assert ab[i] == b[i - |a|];
      }
    }
  }

  // ---------------------------------------------------------------------------
  // The handler
  // ---------------------------------------------------------------------------

  /** The presence check `!lat || !lon`: JavaScript truthiness, so a
      coordinate of 0 counts as missing. */
  predicate CoordinatesGiven(lat: JsonValue, lon: JsonValue)
    ensures CoordinatesGiven(lat, lon) <==> lat !in FalsyValues && lon !in FalsyValues
  {
    Truthy(lat) && Truthy(lon)
  }

  /** `POST /predicted` with body `{ lat, lon }`; `fetch` is what the upstream
      call yields (it is made only once the coordinates pass the check). */
  function Predicted(lat: JsonValue, lon: JsonValue, fetch: WeatherFetch): (r: PredictedResponse)
    ensures r == MissingCoordinates <==> !CoordinatesGiven(lat, lon)
    ensures r.Report? <==> CoordinatesGiven(lat, lon) && fetch.Fetched? && |fetch.days| > 0
    ensures r.Report? ==> r.forecast == ForecastDays(fetch.days) && r.output == OutputReductions(fetch.days)
    ensures r.Report? ==> |r.forecast| == |r.output| == |fetch.days|
  {
    if !Truthy(lat) || !Truthy(lon) then
      MissingCoordinates
    else
      match fetch
      case FetchFailed => PredictionFailed
      case Fetched(days) =>
        var output := OutputReductions(days);
        // the current-conditions block reads forecastDays[0], which throws on an empty list
        if |days| == 0 then PredictionFailed
        else Report(ForecastDays(days), output)
  }

  /** A zero latitude or longitude is rejected with 400, whatever the other
      coordinate is. */
  lemma ZeroCoordinateRejected(other: JsonValue, fetch: WeatherFetch)
    ensures Predicted(Num(0.0), other, fetch) == MissingCoordinates
    ensures Predicted(other, Num(0.0), fetch) == MissingCoordinates
    ensures PredictedStatus(Predicted(Num(0.0), other, fetch)) == 400
  {
  }

  /** A missing longitude is rejected with 400. */
  lemma MissingLongitudeRejected(lat: JsonValue, fetch: WeatherFetch)
    ensures Predicted(lat, Undefined, fetch) == MissingCoordinates
  {
  }

  /** Non-zero numeric coordinates pass the check; the answer then depends
      only on the upstream call. */
  lemma NonzeroCoordinatesAccepted(lat: real, lon: real, fetch: WeatherFetch)
    requires lat != 0.0 && lon != 0.0
    ensures Predicted(Num(lat), Num(lon), fetch) != MissingCoordinates
    ensures fetch.FetchFailed? ==> PredictedStatus(Predicted(Num(lat), Num(lon), fetch)) == 500
  {
  }
}
