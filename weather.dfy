/**
 * The data the front end receives from the Open-Meteo geocoding and forecast
 * services, reduced to the fields the decision logic reads.
 */
module Weather {
  import opened Options

  /** One geocoding match (`geoResponse.data.results[i]`). */
  datatype GeoMatch = GeoMatch(
    name: string,
    country: string,
    admin1: Option<string>,
    latitude: real,
    longitude: real)

  /** The `current` block of a forecast response. */
  datatype Current = Current(
    temperature: real,          // temperature_2m, degrees Celsius
    apparentTemperature: real,  // apparent_temperature
    humidity: real,             // relative_humidity_2m, percent
    precipitation: Option<real>,// precipitation, millimetres; may be absent
    windSpeed: real,            // wind_speed_10m, km/h
    windDirection: real,        // wind_direction_10m, degrees
    pressure: real,             // pressure_msl, hPa
    visibility: real,           // visibility, metres
    isDay: int,                 // is_day, 1 by day and 0 by night
    weatherCode: int)           // weather_code, WMO code table 4677

  /** The `daily` block: one entry per forecast day, index 0 is today. */
  datatype Daily = Daily(
    maxTemperature: seq<real>,
    minTemperature: seq<real>,
    sunrise: seq<string>,
    sunset: seq<string>,
    uvIndexMax: seq<real>)

  /** A forecast response body. */
  datatype Forecast = Forecast(current: Current, daily: Daily)

  /** The location record the search attaches to the forecast. */
  datatype Place = Place(name: string, country: string, admin1: Option<string>)

  /** `weatherData`: the forecast together with the place it was fetched for. */
  datatype WeatherData = WeatherData(forecast: Forecast, location: Place)
}
