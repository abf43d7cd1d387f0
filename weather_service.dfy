/** The weather service (services/weatherService.ts): current conditions
    with a demo fallback, the seven-day forecast and the device position.
    The HTTP calls and the geolocation prompt are inputs. */
module WeatherService {

  import opened Types
  import GeminiService

  const DEMO_WEATHER: WeatherData := WeatherData(28, "Clear Sky", 65.0, 8.0, "Bhopal (Demo)", true)

  const WMO_CODES: map<int, string> := map[
    0 := "Clear sky", 1 := "Mainly clear", 2 := "Partly cloudy", 3 := "Overcast",
    45 := "Fog", 48 := "Depositing rime fog",
    51 := "Light drizzle", 53 := "Moderate drizzle", 55 := "Dense drizzle",
    61 := "Slight rain", 63 := "Moderate rain", 65 := "Heavy rain",
    71 := "Slight snow", 80 := "Slight showers", 95 := "Thunderstorm"]

  /** The weather service labels a code exactly as the AI service does. */
  function ConditionLabel(code: int): (r: string)
    ensures r == GeminiService.ConditionLabel(code)
    ensures code !in WMO_CODES ==> r == "Unknown"
  {
    assert WMO_CODES == GeminiService.WMO_CODES;
    LabelOr(WMO_CODES, code)
  }

  /** `Math.round`: the nearest integer, halves rounded up. */
  function Round(x: real): (r: int)
    ensures r as real <= x + 0.5 < r as real + 1.0
    ensures x - 0.5 < r as real
  {
    (x + 0.5).Floor
  }

  /** A coordinate JavaScript treats as missing: absent or zero. */
  predicate Missing(x: Option<real>)
  {
    x.None? || x.value == 0.0
  }

  /** The `current` block of a weather reply. */
  datatype CurrentReading = CurrentReading(temperature: real, humidity: real, code: int, windSpeed: real)

  /** A fetched response: its `ok` flag and its body, which throws when it
      is not JSON or has no `current` block. */
  datatype HttpResponse = HttpResponse(ok: bool, current: Outcome<CurrentReading>)

  /** `fetchWeather`: demo data for a missing coordinate, a failed or timed
      out call, a non-ok status or an unreadable body; otherwise the live
      reading, rounded and labelled, at "Current Location". */
  function FetchWeather(lat: Option<real>, lon: Option<real>, response: Outcome<HttpResponse>): (r: WeatherData)
    ensures r.isDemo <==> Missing(lat) || Missing(lon) || response.Threw? || !response.value.ok
                          || response.value.current.Threw?
    ensures r.isDemo ==> r == DEMO_WEATHER
    ensures !r.isDemo ==>
              var c := response.value.current.value;
              && r.location == "Current Location"
              && r.temp == Round(c.temperature)
              && r.condition == ConditionLabel(c.code)
              && r.humidity == c.humidity && r.windSpeed == c.windSpeed
  {
    if Missing(lat) || Missing(lon) then DEMO_WEATHER
    else match response
      case Threw => DEMO_WEATHER
      case Returned(resp) =>
        if !resp.ok then DEMO_WEATHER
        else match resp.current
          case Threw => DEMO_WEATHER
          case Returned(c) =>
            WeatherData(Round(c.temperature), ConditionLabel(c.code), c.humidity, c.windSpeed,
                        "Current Location", false)
  }

  /** The `daily` block of a forecast reply: parallel arrays. */
  datatype DailySeries = DailySeries(
    time: seq<string>, maxTemp: seq<real>, minTemp: seq<real>, rain: seq<real>, code: seq<int>)

  /** A forecast day; a field whose array is too short is `None`
      (`undefined`). The date is the API's own date text. */
  datatype ForecastDay = ForecastDay(date: string, maxTemp: Option<real>, minTemp: Option<real>,
                                     rain: Option<real>, code: Option<int>)

  /** `a[i]` in JavaScript: `undefined` past the end. */
  function At<T>(a: seq<T>, i: nat): (r: Option<T>)
    ensures r.Some? <==> i < |a|
    ensures r.Some? ==> r.value == a[i]
  {
    if i < |a| then Some(a[i]) else None
  }

  /** One day per entry of `time`, the other arrays read at the same index. */
  function ForecastDays(d: DailySeries): (r: seq<ForecastDay>)
    ensures |r| == |d.time|
    ensures forall i | 0 <= i < |r| ::
              r[i] == ForecastDay(d.time[i], At(d.maxTemp, i), At(d.minTemp, i), At(d.rain, i), At(d.code, i))
  {
    seq(|d.time|, i requires 0 <= i < |d.time| =>
      ForecastDay(d.time[i], At(d.maxTemp, i), At(d.minTemp, i), At(d.rain, i), At(d.code, i)))
  }

  /** When the arrays run in parallel, every day is complete and the days
      read back the series. */
  lemma ForecastDaysComplete(d: DailySeries)
    requires |d.maxTemp| == |d.minTemp| == |d.rain| == |d.code| == |d.time|
    ensures forall i | 0 <= i < |d.time| ::
              var day := ForecastDays(d)[i];
              day.maxTemp == Some(d.maxTemp[i]) && day.minTemp == Some(d.minTemp[i])
              && day.rain == Some(d.rain[i]) && day.code == Some(d.code[i])
    ensures ForecastSeries(ForecastDays(d)) == d
  {
    var days := ForecastDays(d);
    var s := ForecastSeries(days);
    assert s.time == d.time;
    assert s.maxTemp == d.maxTemp;
    assert s.minTemp == d.minTemp;
    assert s.rain == d.rain;
    assert s.code == d.code;
  }

  /** The value of a present field, or a default. */
  function ValueOr<T>(o: Option<T>, d: T): T
  {
    if o.Some? then o.value else d
  }

  /** The inverse of `ForecastDays`: the days back as parallel arrays. */
  function ForecastSeries(days: seq<ForecastDay>): (d: DailySeries)
    ensures |d.time| == |d.maxTemp| == |d.minTemp| == |d.rain| == |d.code| == |days|
    ensures forall i | 0 <= i < |days| ::
              d.time[i] == days[i].date && d.maxTemp[i] == ValueOr(days[i].maxTemp, 0.0)
              && d.minTemp[i] == ValueOr(days[i].minTemp, 0.0) && d.rain[i] == ValueOr(days[i].rain, 0.0)
              && d.code[i] == ValueOr(days[i].code, 0)
  {
    if days == [] then DailySeries([], [], [], [], [])
    else
      var rest := ForecastSeries(days[1..]);
      var x := days[0];
      DailySeries([x.date] + rest.time, [ValueOr(x.maxTemp, 0.0)] + rest.maxTemp,
                  [ValueOr(x.minTemp, 0.0)] + rest.minTemp, [ValueOr(x.rain, 0.0)] + rest.rain,
                  [ValueOr(x.code, 0)] + rest.code)
  }

  /** `fetchForecast`: the days of the `daily` block, or none when the reply
      has no such block or the call or its parse throws. */
  function FetchForecast(response: Outcome<Option<DailySeries>>): (r: seq<ForecastDay>)
    ensures response.Threw? || response.value.None? ==> r == []
    ensures response.Returned? && response.value.Some? ==> r == ForecastDays(response.value.value)
  {
    match response
    case Threw => []
    case Returned(None) => []
    case Returned(Some(d)) => ForecastDays(d)
  }

  /** `getCurrentLocation`: the fix, or null without geolocation support or
      when the prompt fails (`fix == None`: denied, unavailable, timed out). */
  function GetCurrentLocation(supported: bool, fix: Option<Coords>): (r: Option<Coords>)
    ensures r.Some? <==> supported && fix.Some?
    ensures r.Some? ==> r == fix
  {
    if !supported then None else fix
  }
}
