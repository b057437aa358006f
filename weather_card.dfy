/**
 * The WeatherCard component's display decisions: the icon of a weather code,
 * the card's description table, the background gradient, the position of
 * the current temperature between today's low and high, the region prefix
 * of the location line and the day/night badge.
 */
module WeatherCard {
  import opened Options
  import opened Text
  import opened Weather
  import WeatherHelpers

  /** The card's icons; the two rain bands and the two snow bands differ in colour. */
  datatype CardIcon =
    | ClearSun | MostlySun | Clouds | Fog | Drizzle | Rain
    | Snow | RainShowers | SnowShowers | Thunder | DefaultCloud

  /**
   * First-match ranges on the weather code. Codes in none of the ranges (the
   * gaps of the WMO table and negative codes) get the default cloud.
   */
  function CardIconOf(code: int): (i: CardIcon)
    ensures i == ClearSun <==> code == 0
    ensures i == MostlySun <==> code == 1
    ensures i == Clouds <==> code == 2 || code == 3
    ensures i == Fog <==> 45 <= code <= 48
    ensures i == Drizzle <==> 51 <= code <= 57
    ensures i == Rain <==> 61 <= code <= 67
    ensures i == Snow <==> 71 <= code <= 77
    ensures i == RainShowers <==> 80 <= code <= 82
    ensures i == SnowShowers <==> 85 <= code <= 86
    ensures i == Thunder <==> code >= 95
    ensures i == DefaultCloud <==>
      code < 0 || 4 <= code <= 44 || 49 <= code <= 50 || 58 <= code <= 60 || 68 <= code <= 70
      || 78 <= code <= 79 || 83 <= code <= 84 || 87 <= code <= 94
  {
    if code == 0 then ClearSun
    else if code == 1 then MostlySun
    else if code == 2 || code == 3 then Clouds
    else if 45 <= code <= 48 then Fog
    else if 51 <= code <= 57 then Drizzle
    else if 61 <= code <= 67 then Rain
    else if 71 <= code <= 77 then Snow
    else if 80 <= code <= 82 then RainShowers
    else if 85 <= code <= 86 then SnowShowers
    else if code >= 95 then Thunder
    else DefaultCloud
  }

  /** The 28 codes the card's description table names. */
  const CardCodes: set<int> := {
    0, 1, 2, 3, 45, 48, 51, 53, 55, 56, 57, 61, 63, 65, 66, 67,
    71, 73, 75, 77, 80, 81, 82, 85, 86, 95, 96, 99 }

  /** The card's description table. */
  function CardDescriptionEntry(code: int): (e: Option<string>)
    ensures e.Some? <==> code in CardCodes
    ensures e.Some? ==> e.value != "" && e.value != "Unknown"
  {
    match code
    case 0 => Some("Clear Sky")
    case 1 => Some("Mainly Clear")
    case 2 => Some("Partly Cloudy")
    case 3 => Some("Overcast")
    case 45 => Some("Foggy")
    case 48 => Some("Depositing Rime Fog")
    case 51 => Some("Light Drizzle")
    case 53 => Some("Moderate Drizzle")
    case 55 => Some("Dense Drizzle")
    case 56 => Some("Light Freezing Drizzle")
    case 57 => Some("Dense Freezing Drizzle")
    case 61 => Some("Slight Rain")
    case 63 => Some("Moderate Rain")
    case 65 => Some("Heavy Rain")
    case 66 => Some("Light Freezing Rain")
    case 67 => Some("Heavy Freezing Rain")
    case 71 => Some("Slight Snow")
    case 73 => Some("Moderate Snow")
    case 75 => Some("Heavy Snow")
    case 77 => Some("Snow Grains")
    case 80 => Some("Slight Rain Showers")
    case 81 => Some("Moderate Rain Showers")
    case 82 => Some("Violent Rain Showers")
    case 85 => Some("Slight Snow Showers")
    case 86 => Some("Heavy Snow Showers")
    case 95 => Some("Thunderstorm")
    case 96 => Some("Thunderstorm with Slight Hail")
    case 99 => Some("Thunderstorm with Heavy Hail")
    case _ => None
  }

  /** `descriptions[code] || 'Unknown'`. */
  function CardDescription(code: int): (d: string)
    ensures d == "Unknown" <==> code !in CardCodes
    ensures code in CardCodes ==> Some(d) == CardDescriptionEntry(code)
  {
    match CardDescriptionEntry(code)
    case Some(text) => text
    case None => "Unknown"
  }

  /** Every code the card can describe also has an icon of its own. */
  lemma DescribedCodesHaveIcons(code: int)
    ensures code in CardCodes ==> CardIconOf(code) != DefaultCloud
  {
  }

  /**
   * The card's table extends the shared helper's table: every code the helper
   * describes is in it, with the same words up to letter case.
   */
  lemma CardTableExtendsHelperTable(code: int)
    requires code in WeatherHelpers.DescribedCodes
    ensures code in CardCodes
    ensures ToLower(CardDescription(code)) == ToLower(WeatherHelpers.Description(code))
  {
    match code
    case 0 => SameUpToCase("Clear Sky", "Clear sky");
    case 1 => SameUpToCase("Mainly Clear", "Mainly clear");
    case 2 => SameUpToCase("Partly Cloudy", "Partly cloudy");
    case 3 => SameUpToCase("Overcast", "Overcast");
    case 45 => SameUpToCase("Foggy", "Foggy");
    case 48 => SameUpToCase("Depositing Rime Fog", "Depositing rime fog");
    case 51 => SameUpToCase("Light Drizzle", "Light drizzle");
    case 53 => SameUpToCase("Moderate Drizzle", "Moderate drizzle");
    case 55 => SameUpToCase("Dense Drizzle", "Dense drizzle");
    case 61 => SameUpToCase("Slight Rain", "Slight rain");
    case 63 => SameUpToCase("Moderate Rain", "Moderate rain");
    case 65 => SameUpToCase("Heavy Rain", "Heavy rain");
    case 71 => SameUpToCase("Slight Snow", "Slight snow");
    case 73 => SameUpToCase("Moderate Snow", "Moderate snow");
    case 75 => SameUpToCase("Heavy Snow", "Heavy snow");
    case 95 => SameUpToCase("Thunderstorm", "Thunderstorm");
  }

  /** Two texts whose letters agree once lower-cased have the same lower-case form. */
  lemma SameUpToCase(a: string, b: string)
    requires |a| == |b| && forall i :: 0 <= i < |a| ==> a[i] == b[i] || LowerChar(a[i]) == b[i]
    ensures ToLower(a) == ToLower(b)
  {
    forall i | 0 <= i < |a| ensures LowerChar(a[i]) == LowerChar(b[i]) {
      if a[i] != b[i] {
        assert LowerChar(b[i]) == b[i];
      }
    }
  }

  /** The card's background. */
  datatype Gradient =
    | SunnyGradient | RainGradient | SnowGradient | StormGradient
    | HotGradient | ColdGradient | MildGradient

  /** The weather codes whose gradient does not depend on the temperature. */
  predicate CodeDecidesGradient(code: int) {
    code == 0 || 61 <= code <= 67 || 71 <= code <= 86 || code >= 95
  }

  /**
   * The gradient: by weather code first (clear, rain, snow, storm), and only
   * for other codes by temperature (above 25 hot, below 10 cold, else mild).
   */
  function GradientOf(code: int, temp: real): (g: Gradient)
    ensures g == SunnyGradient <==> code == 0
    ensures g == RainGradient <==> 61 <= code <= 67
    ensures g == SnowGradient <==> 71 <= code <= 86
    ensures g == StormGradient <==> code >= 95
    ensures g == HotGradient <==> !CodeDecidesGradient(code) && temp > 25.0
    ensures g == ColdGradient <==> !CodeDecidesGradient(code) && temp < 10.0
    ensures g == MildGradient <==> !CodeDecidesGradient(code) && 10.0 <= temp <= 25.0
  {
    if code == 0 then SunnyGradient
    else if 61 <= code <= 67 then RainGradient
    else if 71 <= code <= 86 then SnowGradient
    else if code >= 95 then StormGradient
    else if temp > 25.0 then HotGradient
    else if temp < 10.0 then ColdGradient
    else MildGradient
  }

  /**
   * Where the current temperature sits between today's low and high, in
   * percent of the range; 50 when the range is empty or inverted.
   */
  function TempPercentage(temp: real, high: real, low: real): (p: real)
    ensures high - low <= 0.0 ==> p == 50.0
    ensures high > low && temp == low ==> p == 0.0
    ensures high > low && temp == high ==> p == 100.0
    ensures high > low && low <= temp <= high ==> 0.0 <= p <= 100.0
    ensures high > low ==> (p < 0.0 <==> temp < low) && (p > 100.0 <==> temp > high)
  {
    var range := high - low;
    if range > 0.0 then
      var p := (temp - low) / range * 100.0;
      PercentageBounds(temp - low, range);
      p
    else 50.0
  }

  lemma PercentageBounds(diff: real, range: real)
    requires range > 0.0
    ensures diff / range * 100.0 < 0.0 <==> diff < 0.0
    ensures diff / range * 100.0 > 100.0 <==> diff > range
    ensures diff == range ==> diff / range * 100.0 == 100.0
  {
    var q := diff / range;
    assert q * range == diff;
    if diff < 0.0 { assert q < 0.0; }
    if diff >= 0.0 { assert q >= 0.0; }
    if diff > range { assert q > 1.0; }
    if diff <= range { assert q <= 1.0; }
  }

  /** Within a non-empty range, a warmer reading sits no further left. */
  lemma {:induction false} TempPercentageMonotone(t1: real, t2: real, high: real, low: real)
    requires high > low && t1 <= t2
    ensures TempPercentage(t1, high, low) <= TempPercentage(t2, high, low)
  {
    var range := high - low;
    var q1 := (t1 - low) / range;
    var q2 := (t2 - low) / range;
    assert q1 * range == t1 - low && q2 * range == t2 - low;
    assert (q2 - q1) * range == t2 - t1;
    assert q1 <= q2;
  }

  /**
   * The bar on a card: today's high and low are the first daily values; a
   * missing one makes the range not a number, which fails `> 0` and gives 50.
   */
  function BarPercentage(temp: real, d: Daily): (p: real)
    ensures d.maxTemperature == [] || d.minTemperature == [] ==> p == 50.0
    ensures d.maxTemperature != [] && d.minTemperature != [] ==>
      p == TempPercentage(temp, d.maxTemperature[0], d.minTemperature[0])
  {
    if d.maxTemperature == [] || d.minTemperature == [] then 50.0
    else TempPercentage(temp, d.maxTemperature[0], d.minTemperature[0])
  }

  /** The second location line: `"<region>, "` only for a present, non-empty region, then the country. */
  function LocationLine(place: Place): (line: string)
    ensures place.admin1.Some? && place.admin1.value != "" ==>
      line == place.admin1.value + ", " + place.country
    ensures place.admin1.None? || place.admin1.value == "" ==> line == place.country
  {
    match place.admin1
    case Some(region) => if region != "" then region + ", " + place.country else place.country
    case None => place.country
  }

  /** The badge under the icon. */
  datatype DayNight = DayBadge | NightBadge

  /** `is_day` is 1 by day and 0 by night; any non-zero value reads as day. */
  function DayNightOf(isDay: int): (b: DayNight)
    ensures b == DayBadge <==> isDay != 0
  {
    if isDay != 0 then DayBadge else NightBadge
  }

  /** What the card shows, reduced to the decisions above. */
  datatype CardView = CardView(
    title: string,
    locationLine: string,
    description: string,
    icon: CardIcon,
    gradient: Gradient,
    percentage: real,
    badge: DayNight)

  /** The card: nothing without data, otherwise the decisions for the current reading. */
  function Card(data: Option<WeatherData>): (v: Option<CardView>)
    ensures v.Some? <==> data.Some?
    ensures v.Some? ==>
      var c := data.value.forecast.current;
      && v.value.title == data.value.location.name
      && v.value.locationLine == LocationLine(data.value.location)
      && v.value.description == CardDescription(c.weatherCode)
      && v.value.icon == CardIconOf(c.weatherCode)
      && v.value.gradient == GradientOf(c.weatherCode, c.temperature)
      && v.value.percentage == BarPercentage(c.temperature, data.value.forecast.daily)
      && v.value.badge == DayNightOf(c.isDay)
      && (v.value.description == "Unknown" <==> c.weatherCode !in CardCodes)
      && (v.value.icon == DefaultCloud ==> v.value.description == "Unknown")
      && (v.value.badge == DayBadge <==> c.isDay != 0)
      && (CodeDecidesGradient(c.weatherCode) || v.value.gradient in {HotGradient, ColdGradient, MildGradient})
  {
    match data
    case None => None
    case Some(w) =>
      var c := w.forecast.current;
      DescribedCodesHaveIcons(c.weatherCode);
      Some(CardView(
        w.location.name,
        LocationLine(w.location),
        CardDescription(c.weatherCode),
        CardIconOf(c.weatherCode),
        GradientOf(c.weatherCode, c.temperature),
        BarPercentage(c.temperature, w.forecast.daily),
        DayNightOf(c.isDay)))
  }
}
