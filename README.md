# weather-now, modelled in Dafny

weather-now is a React front end. It looks a city up with the Open-Meteo
geocoding service and fetches its forecast. It then shows a weather card, a
panel of activity insights and a UV-index card. Before any search it shows a
strip of popular cities with their current weather. This project models the
decision logic of that front end and proves properties of it. The logic
covered is:

- the rule chain of the activity-insights panel and its clothing, energy and
  badge decisions;
- the shared helpers (the weather-code description table and the simple
  activity recommender);
- the search bar: the trim guard in front of a search, the recent-search
  list, the key and click handlers;
- the App's search state (`loading`, `error`, `weatherData`, `city`), the
  "my location" shortcut, the all-or-nothing popular-cities combination, the
  strip icon bands and the UV label;
- the weather card's icon ranges, description table, gradient priority,
  temperature-range bar, region prefix and day/night badge.

Files:

- `options.dfy`: the `Option` type.
- `text.dfy`: JavaScript's `trim()` (the ECMAScript white-space and
  line-terminator code points) and ASCII `toLowerCase()`.
- `weather.dfy`: the geocoding and forecast data the logic reads.
- `activity_insights.dfy`: the insights panel. It is pure: the ordered list
  of fired rules is a function of the current reading.
- `weather_helpers.dfy`: `getWeatherDescription`, and
  `getActivityRecommendations` as a method that pushes entries.
- `search_bar.dfy`: the recent-search list as functions, and the component
  state as a class whose handlers update its fields.
- `app.dfy`: the lookup outcome as a pure function, and the App state as a
  class. `searchCity` is split at its first request: `StartSearch` is the
  synchronous part, `FinishSearch` consumes the lookup outcomes.
- `weather_card.dfy`: the card's classifiers.

The network responses are parameters. The geocoding outcome is a failure,
or a body whose `results` list may be missing or empty. The forecast
outcome is a failure or a forecast. One outcome per popular city is passed
in.

Readings are exact reals. A missing precipitation reading is kept as
`None`, because the two rule sets treat it alike but by different routes:
the insights panel replaces it with 0, while the helper's `> 0` is false
for `undefined`.

In the insights source, the light-rain activity "Café Hopping" is stored
doubly encoded (the two code points U+00C3 U+00A9 in place of é). The model
keeps the text as written.

Two consequences of the code are easy to miss:

- Popular cities are all-or-nothing, not best-effort. The per-city requests
  are awaited together with `Promise.all`, so one failed city leaves the
  whole list unchanged; failed cities are not simply dropped
  (`CombinePopular`, `App.LoadPopular`).
- The ideal-conditions entry never appears together with the cool entry.
  The ideal rule starts at 15 °C, and the cool band ends below 15 °C
  (`PerfectConditions`).

## Model

| member | source | states |
|---|---|---|
| Text.Trim | src/components/SearchBar.jsx:44 | The result is a slice of the input with only white space cut from both ends. It neither starts nor ends with white space. It is empty exactly when the input is all white space. |
| Text.TrimIdempotent | src/App.jsx:116-132 | Trimming twice equals trimming once. So the already-trimmed name the search bar passes on is looked up unchanged after the App trims it again. |
| Text.ToLower | src/components/SearchBar.jsx:48 | Same length as the input. Each character is lower-cased on its own, and no upper-case ASCII letter remains. |
| ActivityInsights.Rule | src/components/ActivityInsights.jsx:17-153 | Each kind has its fixed record with a non-empty activity list. The severity is excellent only for ideal conditions and good only for warm. It is a warning exactly for hot, freezing, strong wind, heavy rain and low visibility. |
| ActivityInsights.Recommendations | src/components/ActivityInsights.jsx:14-153 | The list holds at most six entries, each the fixed record of its kind, and its kinds are exactly the kinds whose conditions fired, in that order. The groups appear in the order temperature, wind, precipitation, humidity, visibility, ideal, with at most one entry per group. |
| ActivityInsights.RecommendsListed | src/components/ActivityInsights.jsx:14-153 | A kind counts as recommended exactly when some record in the rendered list has that kind. |
| ActivityInsights.FiredKindsOrdered | src/components/ActivityInsights.jsx:14-153 | The fired kinds come in strictly increasing group order. |
| ActivityInsights.RecommendsInGroup | src/components/ActivityInsights.jsx:14-153 | A kind is listed exactly when its own group's if/else-if chain selected it. |
| ActivityInsights.TemperatureGroup | src/components/ActivityInsights.jsx:17-61 | Hot iff above 30. Warm iff in (25, 30]. Freezing iff below 5. Cool iff in [5, 15). There is no temperature entry exactly when 15 <= t <= 25. |
| ActivityInsights.WindGroup | src/components/ActivityInsights.jsx:64-86 | Strong wind iff above 30 km/h. Windy iff in (20, 30]. |
| ActivityInsights.PrecipitationGroup | src/components/ActivityInsights.jsx:89-111 | Heavy rain iff a reading above 5 mm. Light rain iff a reading in (0, 5]. An absent reading gives neither. |
| ActivityInsights.AbsentPrecipitationIsZero | src/components/ActivityInsights.jsx:10 | A missing precipitation reading gives the same list as a reading of 0 mm. |
| ActivityInsights.HumidityAndVisibility | src/components/ActivityInsights.jsx:114-139 | Humid iff humidity is above 80 percent. Low visibility iff visibility is below 5000 m. |
| ActivityInsights.PerfectConditions | src/components/ActivityInsights.jsx:142-153 | Ideal iff 15 <= t <= 25, wind below 20, no precipitation and humidity below 70. When it fires, the only other possible entry is low visibility. |
| ActivityInsights.NoRuleFires | src/components/ActivityInsights.jsx:178-192 | The "conditions are normal" fallback shows exactly for the readings in which every bound holds but one ideal bound is just missed. |
| ActivityInsights.ClothingAdvice | src/components/ActivityInsights.jsx:156-163 | Light clothing iff above 25, warm layers iff below 10, casual wear iff 10 <= t <= 25. |
| ActivityInsights.ClothingFollowsTemperature | src/components/ActivityInsights.jsx:156-163 | Light clothing iff a hot or warm entry is listed. Freezing implies warm layers. Warm layers imply a freezing or cool entry. Casual wear iff 10 <= t <= 25. |
| ActivityInsights.EnergyLevel | src/components/ActivityInsights.jsx:277-279 | High iff 15 <= t <= 25 and wind below 20. Low iff above 30 or below 5. Moderate in every other case. |
| ActivityInsights.EnergyFollowsRecommendations | src/components/ActivityInsights.jsx:277-279 | Low energy iff a hot or freezing entry is listed. High energy iff there is no temperature entry and the wind is below 20. The ideal entry implies high energy. |
| ActivityInsights.SeverityBadge | src/components/ActivityInsights.jsx:168-176 | The "good" badge is returned exactly for the names outside excellent/moderate/warning, so it is the fallback. |
| ActivityInsights.BadgesDistinguishSeverities | src/components/ActivityInsights.jsx:168-176 | Distinct severities get distinct badges. |
| ActivityInsights.Insights | src/components/ActivityInsights.jsx:178-192 | Hidden without data. The normal-conditions fallback iff no rule fires. Otherwise one card per recommendation, in order, with its badge, the clothing bucket and the energy label. |
| WeatherHelpers.DescriptionEntry | src/utils/weatherHelpers.js:2-22 | The table has an entry for exactly its 16 codes. Entries are non-empty and never "Unknown". |
| WeatherHelpers.Description | src/utils/weatherHelpers.js:2-22 | "Unknown" iff the code is not in the table. Otherwise the table's entry. |
| WeatherHelpers.ActivityRecommendations | src/utils/weatherHelpers.js:34-72 | Warm advice iff t > 25. Cold advice iff t < 10, never together with warm. Windy iff wind > 20. Rain iff a reading above 0. At most three entries, each the fixed advice of its kind, in the source's push order. |
| WeatherHelpers.FourRules | src/utils/weatherHelpers.js:40-70 | For any combination of the four conditions, the pushed entries list exactly the kinds whose condition held, in rule order. |
| SearchBar.WithoutMatches | src/components/SearchBar.jsx:48 | The result is a subsequence of the input (original order kept) that contains an entry iff the input does and it does not match the key up to letter case. |
| SearchBar.WithoutMatchesCounts | src/components/SearchBar.jsx:48 | Every copy of a non-matching entry is kept and every copy of a matching one is dropped, so repeated entries keep their number. |
| SearchBar.AddRecent | src/components/SearchBar.jsx:46-49 | The new entry comes first. At most five entries are kept. No other entry matches it up to case. The rest is a prefix of the filtered old list, cut only when the list is full, so the old order is kept. |
| SearchBar.AddRecentIdempotent | src/components/SearchBar.jsx:46-49 | Recording the same search twice equals recording it once. |
| SearchBar.AddRecentKeepsDistinct | src/components/SearchBar.jsx:64-67 | A list free of case-insensitive duplicates stays free of them after an update. |
| SearchBar.TriggerSearch | src/components/SearchBar.jsx:5-11 | The term is used, or the input when the term is empty. A search is issued iff that text is not blank, and it receives the trimmed text. |
| SearchBar.EnabledIffSearchIssued | src/components/SearchBar.jsx:143 | When not loading, the button is enabled exactly when pressing it issues a search. |
| SearchBar.SearchBox.constructor | src/components/SearchBar.jsx:27-31 | On mount the recent list is the saved list and the suggestions are closed. |
| SearchBar.SearchBox.SearchEnabled | src/components/SearchBar.jsx:143 | Enabled iff not loading and the input has a non-space character. |
| SearchBar.SearchBox.HandleSearch | src/components/SearchBar.jsx:43-57 | On a blank input nothing changes and nothing is searched. Otherwise the trimmed input is recorded and searched, and the suggestions close. |
| SearchBar.SearchBox.HandleSuggestionClick | src/components/SearchBar.jsx:59-77 | The input takes the entry. The untrimmed entry is recorded, the suggestions close, and the search falls back to the previous input. |
| SearchBar.SearchBox.HandleKeyPress | src/components/SearchBar.jsx:33-41 | Enter behaves as the search button: a blank input changes neither the list nor the suggestions; otherwise the trimmed input is recorded and searched and the suggestions close. Escape closes the suggestions. Other keys change nothing. |
| SearchBar.SearchBox.ClearInput | src/components/SearchBar.jsx:79-82 | The input becomes empty. |
| SearchBar.SearchBox.ClearRecentSearches | src/components/SearchBar.jsx:84-87 | The recent list becomes empty. |
| WeatherApp.Resolve | src/App.jsx:127-177 | Not found iff the body has no results. Failure iff the geocoding failed, or the forecast failed after a match. Otherwise the forecast plus the first match's name, country and region. |
| WeatherApp.MainSection | src/App.jsx:274-354 | The spinner, the results and the popular strip are mutually exclusive. Each is shown under its own condition, and nothing is shown in the remaining states. |
| WeatherApp.CombinePopular | src/App.jsx:34-58 | There is a list iff every city's request succeeded. It then holds each city with its own reading, in the cities' order. |
| WeatherApp.StripIconOf | src/App.jsx:105-113 | First-match bands: 0 is sun; up to 3 (including negative codes) partly cloudy; then up to 48, 67, 77 and 82; storm above. |
| WeatherApp.StripIconMonotone | src/App.jsx:105-113 | Over non-negative codes, a higher code never gets an earlier band. |
| WeatherApp.UvLabel | src/App.jsx:318-320 | Low below 3, moderate below 6, high below 8, otherwise very high. A missing value also reads very high. |
| WeatherApp.UvProtection | src/App.jsx:321 | The sun-protection hint shows iff a value is present and at least 6. |
| WeatherApp.UvProtectionMatchesLabel | src/App.jsx:318-321 | The sun-protection hint shows exactly with a present high or very-high value. |
| WeatherApp.TodayUv | src/App.jsx:308-321 | Today's value exists iff the daily list is non-empty, and it is the list's first value. |
| WeatherApp.Carousel | src/App.jsx:373 | The strip shows the list twice in a row. |
| WeatherApp.App.constructor | src/App.jsx:11-17 | Initial state: empty input, no data, not loading, no error, no location, no popular cities. |
| WeatherApp.App.StartSearch | src/App.jsx:115-125 | A blank term and fallback set "Please enter a city name" and leave loading and data alone. Otherwise: loading, no error, no data, and the trimmed name is looked up. |
| WeatherApp.App.FinishSearch | src/App.jsx:127-177 | Not found and failure set their messages and keep the data. Success stores the data and sets the input to the matched name. Loading ends in every case. |
| WeatherApp.App.SearchCity | src/App.jsx:115-177 | After a non-blank search, data is present iff a forecast was found. The results block shows exactly then. The popular strip is hidden. An error message remains iff the search did not succeed. |
| WeatherApp.App.HandleMyLocation | src/App.jsx:180-187 | Without a known location it sets "Location not available. Please search manually." and does not search. A blank location becomes the input and gives "Please enter a city name". Otherwise the input takes the location and the search settles: data iff a forecast was found, the outcome's message or no error, and the matched name on success. |
| WeatherApp.App.HandleCityClick | src/App.jsx:189-192 | The input takes the name and it is searched, falling back to the previous input for an empty name. A blank choice gives "Please enter a city name". Otherwise the search settles as for `SearchCity`, with the matched name on success and the clicked name otherwise. |
| WeatherApp.App.LocateUser | src/App.jsx:65-95 | The first match's name becomes the user location. No match leaves it unchanged. |
| WeatherApp.App.LoadPopular | src/App.jsx:33-62 | The list is replaced with the combination iff every city succeeded, and left unchanged otherwise. |
| WeatherCard.CardIconOf | src/components/WeatherCard.jsx:8-42 | Each range has its own icon. Exactly the codes in the gaps (and negative codes) get the default cloud. |
| WeatherCard.CardDescriptionEntry | src/components/WeatherCard.jsx:44-76 | The table has an entry for exactly its 28 codes. Entries are non-empty and never "Unknown". |
| WeatherCard.CardDescription | src/components/WeatherCard.jsx:44-76 | "Unknown" iff the code is not among the 28. Otherwise the table's entry. |
| WeatherCard.DescribedCodesHaveIcons | src/components/WeatherCard.jsx:8-76 | Every code with a description has a specific icon. |
| WeatherCard.CardTableExtendsHelperTable | src/components/WeatherCard.jsx:44-76 | Every code the shared helper describes is in the card's table, with the same words up to letter case. |
| WeatherCard.GradientOf | src/components/WeatherCard.jsx:79-87 | The code bands (clear, rain, snow and showers, storm) take priority. Only other codes are hot above 25, cold below 10, else mild. |
| WeatherCard.TempPercentage | src/components/WeatherCard.jsx:102-104 | 50 for an empty or inverted range. Otherwise 0 at the low, 100 at the high, within [0, 100] between them, and below 0 or above 100 exactly outside the range. |
| WeatherCard.TempPercentageMonotone | src/components/WeatherCard.jsx:102-104 | Within a non-empty range, a warmer reading never sits further left. |
| WeatherCard.BarPercentage | src/components/WeatherCard.jsx:91-104 | With today's high and low present, the range percentage of the reading. With either missing, 50. |
| WeatherCard.LocationLine | src/components/WeatherCard.jsx:141-142 | The "region, " prefix appears only for a present, non-empty region. |
| WeatherCard.DayNightOf | src/components/WeatherCard.jsx:191-194 | The day badge shows iff `is_day` is non-zero. |
| WeatherCard.Card | src/components/WeatherCard.jsx:5-194 | No card without data. Otherwise the title is the place name, and the location line, description, icon, gradient, bar position and badge are those of the classifiers above for the current reading. Hence "Unknown" iff the code is undescribed, a default-cloud icon only with "Unknown", the day badge iff `is_day` is non-zero, and a temperature gradient only for codes outside the code bands. |

## Left out

- Network requests to the geocoding and forecast services, browser geolocation, `localStorage`, timers and the welcome screen are not modelled. Their outcomes are parameters (`GeoOutcome`, `ForecastOutcome`, `CityFetch`, the saved recent list).
- `formatTime` and the card's date and time strings are left out: they depend on locale and time zone.
- JSX, icons, colour classes, animations and the random decorative circles are left out. Icons and gradients are enums.
- The WeatherDetails component is not part of this model. It only formats numbers.
- IEEE floating point is not modelled. Readings are exact reals, and NaN appears only as the missing-value cases stated above.
- `Math.round` is left out. A popular city's outcome carries the already rounded temperature, and the card's rounded figures are not modelled.
- Text.ToLower: maps only ASCII letters, not the full Unicode case mapping of `toLowerCase()`.
- ActivityInsights.SeverityBadge: models only string keys. A prototype property name such as "constructor" would find a truthy value in the JavaScript object; this is not modelled.
- The card's icon function takes `isDay` but never reads it, so the model leaves it out of `CardIconOf`.
- Responses that do not match the modelled shape are not modelled. This covers readings missing from `current` other than precipitation, and non-string recent-search entries. The only exceptions are the empty `daily` lists handled by `BarPercentage` and `TodayUv`.
- Concurrency is not modelled: overlapping searches, `Promise.all` interleaving and React state batching. The source has no guard against a late response, and the model does not add one.
- The input's focus and blur handlers and the clear button's visibility are left out. They are presentation only.
