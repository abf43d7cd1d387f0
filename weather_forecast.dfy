/** The forecast screen (pages/WeatherForecast.tsx): which coordinates the
    forecast is fetched for, the place label shown above it, and the summary
    cards under the chart. */
module WeatherForecast {

  import opened Types
  import WeatherService

  /** The coordinates used when no device position is taken (Bhopal). */
  const DEFAULT_LOCATION: Coords := Coords(23.2599, 77.4126)

  const DEMO_LABEL := "Bhopal (Demo)"
  const CURRENT_LABEL := "Current Location"
  const INITIAL_LABEL := "Your Location"

  /** The place label from a reverse-geocoding result: city, else town,
      else county, when one of them is non-empty. */
  function PlaceName(address: Outcome<Address>): (r: Option<string>)
    ensures r.Some? ==> r.value != ""
    ensures address.Threw? ==> r.None?
    ensures address.Returned? && r.None? ==>
              OrStr(address.value.city, "") == "" && OrStr(address.value.town, "") == ""
              && OrStr(address.value.county, "") == ""
    ensures address.Returned? && r.Some? ==>
              r.value == OrStr(address.value.city, OrStr(address.value.town, OrStr(address.value.county, "")))
  {
    match address
    case Threw => None
    case Returned(a) =>
      var r := FirstPresent([a.city, a.town, a.county]);
      FirstPresentCons(a.city, [a.town, a.county]);
      FirstPresentCons(a.town, [a.county]);
      FirstPresentCons(a.county, []);
      assert [a.city, a.town, a.county] == [a.city] + [a.town, a.county];
      assert [a.town, a.county] == [a.town] + [a.county];
      assert [a.county] == [a.county] + [];
      r
  }

  /** The cards under the chart: `forecast.slice(0, 4)`. */
  function SummaryCards(forecast: seq<WeatherService.ForecastDay>): (r: seq<WeatherService.ForecastDay>)
    ensures |r| == if |forecast| < 4 then |forecast| else 4
    ensures forall i | 0 <= i < |r| :: r[i] == forecast[i]
  {
    if |forecast| <= 4 then forecast else forecast[..4]
  }

  class ForecastScreen {
    var forecast: seq<WeatherService.ForecastDay>
    var loading: bool
    var locationName: string

    constructor ()
      ensures forecast == [] && loading && locationName == INITIAL_LABEL
    {
      forecast := [];
      loading := true;
      locationName := INITIAL_LABEL;
    }

    /** `loadForecast`. `position` is the device's fix (`None` when it is
        unavailable or refused; it is asked for only when location is on), `address` the
        reverse-geocoding call and `response` the forecast call. Returns the
        coordinates the forecast was fetched for. */
    method LoadForecast(locationEnabled: bool, position: Option<Coords>, address: Outcome<Address>,
                        response: Outcome<Option<WeatherService.DailySeries>>)
      returns (lat: real, lon: real)
      modifies this
      ensures locationEnabled && position.Some? ==>
                Coords(lat, lon) == position.value
                && locationName == (var n := PlaceName(address); if n.Some? then n.value else CURRENT_LABEL)
      ensures !(locationEnabled && position.Some?) ==>
                Coords(lat, lon) == DEFAULT_LOCATION && locationName == DEMO_LABEL
      ensures forecast == WeatherService.FetchForecast(response) && !loading
    {
      loading := true;
      if locationEnabled {
        var loc := WeatherService.GetCurrentLocation(true, position);
        if loc.Some? {
          lat, lon := loc.value.lat, loc.value.lon;
          locationName := CURRENT_LABEL;
          var city := PlaceName(address);
          if city.Some? {
            locationName := city.value;
          }
        } else {
          lat, lon := DEFAULT_LOCATION.lat, DEFAULT_LOCATION.lon;
          locationName := DEMO_LABEL;
        }
      } else {
        lat, lon := DEFAULT_LOCATION.lat, DEFAULT_LOCATION.lon;
        locationName := DEMO_LABEL;
      }
      forecast := WeatherService.FetchForecast(response);
      loading := false;
    }
  }
}
