/**
 * The App component: the city search with its loading/error/result state,
 * the "my location" shortcut, the popular-cities strip, the emoji icon of the
 * strip and the UV-index label of the result panel.
 */
module WeatherApp {
  import opened Options
  import opened Text
  import opened Weather

  const BlankSearchError := "Please enter a city name"
  const CityNotFoundError := "City not found. Please try another search."
  const FetchFailedError := "Failed to fetch weather data. Please try again."
  const LocationUnavailableError := "Location not available. Please search manually."

  /** What the geocoding request produced: a failure, or a body whose `results` may be missing. */
  datatype GeoOutcome = GeoFail | GeoOk(results: Option<seq<GeoMatch>>)

  /** What the forecast request produced. */
  datatype ForecastOutcome = ForecastFail | ForecastOk(forecast: Forecast)

  /** How a search that got past the blank check ends. */
  datatype SearchResult = NotFound | FetchFailed | Found(data: WeatherData)

  /** The first geocoding match, when the body has a non-empty `results` list. */
  function FirstMatch(geo: GeoOutcome): Option<GeoMatch> {
    if geo.GeoOk? && geo.results.Some? && geo.results.value != [] then Some(geo.results.value[0])
    else None
  }

  /**
   * The outcome of the lookups of `searchCity`: no match is "not found"; a
   * failed request is "failed to fetch" (the forecast is only requested once
   * a match exists); otherwise the forecast is combined with the first
   * match's name, country and region.
   */
  function Resolve(geo: GeoOutcome, fc: ForecastOutcome): (r: SearchResult)
    ensures r == NotFound <==> geo.GeoOk? && (geo.results.None? || geo.results.value == [])
    ensures r == FetchFailed <==>
      geo.GeoFail? || (geo.GeoOk? && geo.results.Some? && geo.results.value != [] && fc.ForecastFail?)
    ensures r.Found? ==>
      && geo.GeoOk? && geo.results.Some? && geo.results.value != [] && fc.ForecastOk?
      && r.data.forecast == fc.forecast
      && r.data.location.name == geo.results.value[0].name
      && r.data.location.country == geo.results.value[0].country
      && r.data.location.admin1 == geo.results.value[0].admin1
  {
    match geo
    case GeoFail => FetchFailed
    case GeoOk(_) =>
      match FirstMatch(geo)
      case None => NotFound
      case Some(m) =>
        match fc
        case ForecastFail => FetchFailed
        case ForecastOk(f) => Found(WeatherData(f, Place(m.name, m.country, m.admin1)))
  }

  /** The block shown under the search bar. */
  datatype Section = LoadingSection | ResultsSection | PopularSection

  /**
   * Which of the three mutually exclusive blocks is rendered: the spinner
   * while loading without data, the results when data is present and nothing
   * is loading, the popular cities when there is no data, no load and no error.
   */
  function MainSection(loading: bool, hasData: bool, error: string): (s: Option<Section>)
    ensures s == Some(LoadingSection) <==> loading && !hasData
    ensures s == Some(ResultsSection) <==> hasData && !loading
    ensures s == Some(PopularSection) <==> !hasData && !loading && error == ""
    ensures s == None <==> (loading && hasData) || (!loading && !hasData && error != "")
  {
    if loading && !hasData then Some(LoadingSection)
    else if hasData && !loading then Some(ResultsSection)
    else if !hasData && !loading && error == "" then Some(PopularSection)
    else None
  }

  /** One of the fixed popular cities. */
  datatype CitySample = CitySample(name: string, country: string, latitude: real, longitude: real)

  /** A popular city with its current temperature (already rounded) and weather code. */
  datatype CityWeather = CityWeather(
    name: string, country: string, latitude: real, longitude: real, temp: int, weatherCode: int)

  /** The outcome of one popular city's forecast request. */
  datatype CityFetch = CityFetchFail | CityFetchOk(temp: int, weatherCode: int)

  const PopularCities: seq<CitySample> := [
    CitySample("New York", "USA", 40.7128, -74.0060),
    CitySample("London", "UK", 51.5074, -0.1278),
    CitySample("Tokyo", "Japan", 35.6762, 139.6503),
    CitySample("Paris", "France", 48.8566, 2.3522),
    CitySample("Dubai", "UAE", 25.2048, 55.2708),
    CitySample("Sydney", "Australia", -33.8688, 151.2093),
    CitySample("Singapore", "Singapore", 1.3521, 103.8198),
    CitySample("Mumbai", "India", 19.0760, 72.8777),
    CitySample("Los Angeles", "USA", 34.0522, -118.2437),
    CitySample("Berlin", "Germany", 52.5200, 13.4050)
  ]

  /**
   * `Promise.all` over the per-city requests: a list only when every request
   * succeeded, holding each city with its own reading, in the cities' order.
   */
  function CombinePopular(cities: seq<CitySample>, fetches: seq<CityFetch>): (r: Option<seq<CityWeather>>)
    requires |fetches| == |cities|
    ensures r.Some? <==> forall i :: 0 <= i < |fetches| ==> fetches[i].CityFetchOk?
    ensures r.Some? ==> |r.value| == |cities| && forall i :: 0 <= i < |cities| ==>
      && r.value[i].name == cities[i].name && r.value[i].country == cities[i].country
      && r.value[i].latitude == cities[i].latitude && r.value[i].longitude == cities[i].longitude
      && r.value[i].temp == fetches[i].temp && r.value[i].weatherCode == fetches[i].weatherCode
  {
    if cities == [] then Some([])
    else
      match fetches[0]
      case CityFetchFail => None
      case CityFetchOk(temp, code) =>
        match CombinePopular(cities[1..], fetches[1..])
        case None => None
        case Some(rest) =>
          var c := cities[0];
          Some([CityWeather(c.name, c.country, c.latitude, c.longitude, temp, code)] + rest)
  }

  /** The emoji of a popular city's weather code (`getWeatherIcon` of the App). */
  datatype StripIcon = Sunny | PartlyCloudy | Cloudy | Rainy | Snowy | Showers | Stormy

  function StripIconRank(i: StripIcon): nat {
    match i
    case Sunny => 0 case PartlyCloudy => 1 case Cloudy => 2 case Rainy => 3
    case Snowy => 4 case Showers => 5 case Stormy => 6
  }

  /** First-match bands on the weather code: 0, up to 3, 48, 67, 77, 82, and above. */
  function StripIconOf(code: int): (i: StripIcon)
    ensures i == Sunny <==> code == 0
    ensures i == PartlyCloudy <==> code < 0 || 1 <= code <= 3
    ensures i == Cloudy <==> 4 <= code <= 48
    ensures i == Rainy <==> 49 <= code <= 67
    ensures i == Snowy <==> 68 <= code <= 77
    ensures i == Showers <==> 78 <= code <= 82
    ensures i == Stormy <==> code > 82
  {
    if code == 0 then Sunny
    else if code <= 3 then PartlyCloudy
    else if code <= 48 then Cloudy
    else if code <= 67 then Rainy
    else if code <= 77 then Snowy
    else if code <= 82 then Showers
    else Stormy
  }

  /** Over the non-negative codes, a higher code never gets a milder icon. */
  lemma StripIconMonotone(a: int, b: int)
    requires 0 <= a <= b
    ensures StripIconRank(StripIconOf(a)) <= StripIconRank(StripIconOf(b))
  {
  }

  /** The UV-index label. */
  datatype UvLevel = UvLow | UvModerate | UvHigh | UvVeryHigh

  /**
   * The label of today's UV index, `uv_index_max[0]`: below 3 low, below 6
   * moderate, below 8 high, otherwise very high. A missing value fails every
   * comparison and so reads "Very High".
   */
  function UvLabel(uv: Option<real>): (l: UvLevel)
    ensures uv.Some? ==> (l == UvLow <==> uv.value < 3.0)
    ensures uv.Some? ==> (l == UvModerate <==> 3.0 <= uv.value < 6.0)
    ensures uv.Some? ==> (l == UvHigh <==> 6.0 <= uv.value < 8.0)
    ensures l == UvVeryHigh <==> uv.None? || uv.value >= 8.0
  {
    match uv
    case None => UvVeryHigh
    case Some(v) =>
      if v < 3.0 then UvLow else if v < 6.0 then UvModerate else if v < 8.0 then UvHigh else UvVeryHigh
  }

  /** Whether the card adds "Use sun protection!" rather than "Safe outdoor exposure". */
  function UvProtection(uv: Option<real>): (protect: bool)
    ensures protect <==> uv.Some? && uv.value >= 6.0
  {
    uv.Some? && uv.value >= 6.0
  }

  /** The protection hint appears exactly with the high and very high labels of a present value. */
  lemma UvProtectionMatchesLabel(uv: Option<real>)
    ensures UvProtection(uv) <==> uv.Some? && UvLabel(uv) in {UvHigh, UvVeryHigh}
  {
  }

  /** Today's UV index as the card reads it: the first daily value, if any. */
  function TodayUv(d: Daily): (uv: Option<real>)
    ensures uv.Some? <==> d.uvIndexMax != []
    ensures uv.Some? ==> uv.value == d.uvIndexMax[0]
  {
    if d.uvIndexMax == [] then None else Some(d.uvIndexMax[0])
  }

  /** The App's state. */
  class App {
    var city: string
    var weatherData: Option<WeatherData>
    var loading: bool
    var error: string
    var userLocation: Option<string>
    var popular: seq<CityWeather>

    constructor()
      ensures city == "" && weatherData == None && !loading && error == ""
      ensures userLocation == None && popular == []
    {
      city := "";
      weatherData := None;
      loading := false;
      error := "";
      userLocation := None;
      popular := [];
    }

    /**
     * The state a search that got past the blank check leaves behind: loading
     * has ended, data is present exactly when a forecast was found, and the
     * message, data and input are those of the outcome.
     */
    ghost predicate SettledAfter(geo: GeoOutcome, fc: ForecastOutcome)
      reads this
    {
      && !loading
      && (Resolve(geo, fc).Found? <==> weatherData.Some?)
      && (Resolve(geo, fc) == NotFound ==> error == CityNotFoundError)
      && (Resolve(geo, fc) == FetchFailed ==> error == FetchFailedError)
      && (Resolve(geo, fc).Found? ==>
            && weatherData == Some(Resolve(geo, fc).data) && error == ""
            && city == Resolve(geo, fc).data.location.name)
    }

    /**
     * `searchCity` up to its first request: the term, or failing that the
     * `fallback` (the input's value when the handler was created), must not be
     * blank; a search clears the error and the previous result and starts
     * loading. The trimmed name to look up is returned.
     */
    method StartSearch(term: string, fallback: string) returns (query: Option<string>)
      modifies this`loading, this`error, this`weatherData
      ensures var chosen := if term != "" then term else fallback;
        && (IsBlank(chosen) ==>
              query == None && error == BlankSearchError
              && loading == old(loading) && weatherData == old(weatherData))
        && (!IsBlank(chosen) ==>
              query == Some(Trim(chosen)) && loading && error == "" && weatherData == None)
    {
      var chosen := if term != "" then term else fallback;
      var trimmed := Trim(chosen);
      if trimmed == "" {
        error := BlankSearchError;
        query := None;
        return;
      }
      loading := true;
      error := "";
      weatherData := None;
      query := Some(trimmed);
    }

    /**
     * `searchCity` after its requests: not found and failures set their
     * message, success stores the data and the matched name; loading ends in
     * every case.
     */
    method FinishSearch(geo: GeoOutcome, fc: ForecastOutcome)
      modifies this`loading, this`error, this`weatherData, this`city
      ensures !loading
      ensures Resolve(geo, fc) == NotFound ==>
        error == CityNotFoundError && weatherData == old(weatherData) && city == old(city)
      ensures Resolve(geo, fc) == FetchFailed ==>
        error == FetchFailedError && weatherData == old(weatherData) && city == old(city)
      ensures Resolve(geo, fc).Found? ==>
        && weatherData == Some(Resolve(geo, fc).data)
        && city == Resolve(geo, fc).data.location.name
        && error == old(error)
    {
      match Resolve(geo, fc)
      case NotFound =>
        error := CityNotFoundError;
        loading := false;
      case FetchFailed =>
        error := FetchFailedError;
        loading := false;
      case Found(d) =>
        weatherData := Some(d);
        city := d.location.name;
        loading := false;
    }

    /**
     * A whole `searchCity(term)` whose lookups produce `geo` and `fc`. After a
     * search that was not blank, only the outcome decides the state: the
     * result block shows exactly when a forecast was found, and otherwise no
     * data is kept and the popular cities stay hidden behind the error.
     */
    method SearchCity(term: string, fallback: string, geo: GeoOutcome, fc: ForecastOutcome)
      returns (query: Option<string>)
      modifies this`loading, this`error, this`weatherData, this`city
      ensures var chosen := if term != "" then term else fallback;
        && (IsBlank(chosen) ==>
              query == None && error == BlankSearchError && city == old(city)
              && loading == old(loading) && weatherData == old(weatherData))
        && (!IsBlank(chosen) ==>
              && query == Some(Trim(chosen))
              && SettledAfter(geo, fc)
              && (!Resolve(geo, fc).Found? ==> city == old(city))
              && (Resolve(geo, fc).Found? <==>
                    MainSection(loading, weatherData.Some?, error) == Some(ResultsSection))
              && MainSection(loading, weatherData.Some?, error) != Some(PopularSection))
    {
      query := StartSearch(term, fallback);
      if query.Some? {
        FinishSearch(geo, fc);
      }
    }

    /**
     * `handleMyLocation`: with a known (non-empty) location the input takes it
     * and it is searched; otherwise the "location not available" message is
     * set and nothing is looked up.
     */
    method HandleMyLocation(geo: GeoOutcome, fc: ForecastOutcome) returns (query: Option<string>)
      modifies this`loading, this`error, this`weatherData, this`city
      ensures (userLocation.None? || userLocation.value == "") ==>
        && query == None && error == LocationUnavailableError
        && city == old(city) && loading == old(loading) && weatherData == old(weatherData)
      ensures userLocation.Some? && userLocation.value != "" && IsBlank(userLocation.value) ==>
        && query == None && error == BlankSearchError && city == userLocation.value
        && loading == old(loading) && weatherData == old(weatherData)
      ensures userLocation.Some? && !IsBlank(userLocation.value) ==>
        && query == Some(Trim(userLocation.value))
        && SettledAfter(geo, fc)
        && (!Resolve(geo, fc).Found? ==> city == userLocation.value)
    {
      if userLocation.Some? && userLocation.value != "" {
        var previous := city;
        city := userLocation.value;
        query := SearchCity(userLocation.value, previous, geo, fc);
      } else {
        error := LocationUnavailableError;
        query := None;
      }
    }

    /**
     * `handleCityClick`: the input takes the clicked name and it is searched;
     * the handler's fallback is still the previous input.
     */
    method HandleCityClick(name: string, geo: GeoOutcome, fc: ForecastOutcome) returns (query: Option<string>)
      modifies this`loading, this`error, this`weatherData, this`city
      ensures var chosen := if name != "" then name else old(city);
        && (IsBlank(chosen) ==>
              && query == None && error == BlankSearchError && city == name
              && loading == old(loading) && weatherData == old(weatherData))
        && (!IsBlank(chosen) ==>
              && query == Some(Trim(chosen))
              && SettledAfter(geo, fc)
              && (!Resolve(geo, fc).Found? ==> city == name))
    {
      var previous := city;
      city := name;
      query := SearchCity(name, previous, geo, fc);
    }

    /**
     * The reverse-geocoding on mount: the first match's name becomes the user
     * location; no match or a failed request leaves it as it was.
     */
    method LocateUser(geo: GeoOutcome)
      modifies this`userLocation
      ensures FirstMatch(geo).Some? ==> userLocation == Some(FirstMatch(geo).value.name)
      ensures FirstMatch(geo).None? ==> userLocation == old(userLocation)
    {
      var m := FirstMatch(geo);
      if m.Some? {
        userLocation := Some(m.value.name);
      }
    }

    /**
     * The popular-cities request on mount: the list is replaced only when every
     * city's request succeeded.
     */
    method LoadPopular(fetches: seq<CityFetch>)
      requires |fetches| == |PopularCities|
      modifies this`popular
      ensures (forall i :: 0 <= i < |fetches| ==> fetches[i].CityFetchOk?) ==>
        |popular| == |PopularCities| && Some(popular) == CombinePopular(PopularCities, fetches)
      ensures (exists i :: 0 <= i < |fetches| && fetches[i].CityFetchFail?) ==> popular == old(popular)
    {
      var combined := CombinePopular(PopularCities, fetches);
      if combined.Some? {
        popular := combined.value;
      }
    }
  }

  /** The carousel renders the list twice in a row, so it loops seamlessly. */
  function Carousel(popular: seq<CityWeather>): (shown: seq<CityWeather>)
    ensures |shown| == 2 * |popular|
    ensures forall i :: 0 <= i < |popular| ==> shown[i] == popular[i] && shown[i + |popular|] == popular[i]
  {
    popular + popular
  }
}
