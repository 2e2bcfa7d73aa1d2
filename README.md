# Weather app: a Dafny model of its session logic

The weather app is a React front end backed by one Spring controller. This project models
the parts of it that are logic rather than layout:

- **Favorites** (`right_panel.dfy`, module `RightPanel`). The right-hand panel keeps a list of
  favorite cities. Starting from an empty or well-formed list (newest first, no name twice, at
  most 12 names), every add and remove keeps it well-formed; a list read back from storage is
  taken as stored, whatever its shape.
  Every change goes to the panel's state and to browser storage under `weather-favorites`.
  The class `FavoritesPanel` holds those two fields. Pure functions give the next list, and
  lemmas prove the list's properties.
- **The page session** (`app.dfy`, module `App`). This covers:
  - the condition classifier behind the background (rain/shower/thunder, then cloud, then night, else sunny);
  - the two fetches (by city, by coordinates), each split into a start phase and a settle phase;
  - the first target chosen at mount (the device position, or "Delhi");
  - the search submit.

  The class `WeatherApp` holds the four state fields. Its methods are proved against the
  transition functions `FetchStarted`, `FetchResolved` and `SearchSubmitted`.
- **The back end** (`weather_controller.dfy`, module `WeatherController`; `jackson.dfy`, module
  `Jackson`). `GetWeather` does four things:
  - it chooses the upstream `q` parameter (a non-blank city first, then lat and lon, else 400);
  - it builds the forecast URL;
  - it projects the upstream JSON tree into the response map with defaults, making icons absolute;
  - it turns exceptions into 500.

  The method fills its maps by successive `put`s and a loop, as the source does. It is proved
  equal to the specification function `Respond`.
- **Trends** (`trends.dfy`, module `Trends`). The trends page fetches the daily forecast with
  loading/error/daily state (try, catch, finally). It takes the first seven days and derives
  the chart categories and the two series from them.

Shared modules: `Text` (JavaScript's `trim`, Java's `isBlank`, substring search, ASCII
lower-casing), `JsValues` (the JavaScript values `res.json()` can yield, truthiness, member
access that throws on null), `Seqs` (`slice(0, n)`), `Wrappers` (`Option`).

Foreign calls are parameters of the operations that use them, as functions:

- `encodeURIComponent`, `URLEncoder.encode`;
- the formatting of numbers as text (JavaScript template literals, `String.format("%f,%f")`, `Double.toString`);
- Jackson's text-to-number coercion.

The network, the browser storage and geolocation are abstract outcomes or maps:

- the upstream service is a function from URL to outcome;
- the response of a `fetch` is a datatype of outcomes;
- storage is a map from key to the list it holds.

Some behaviour of the program worth knowing:

- The classifier has no snow or "clear" category, and it tests rain-family words before "cloud".
- A failed fetch is not retried against a default city, and it leaves the page's data as it was.
- The page keeps no unit or theme preference and does not remember the last city.

## Model

| member | source | states |
|---|---|---|
| `RightPanel.AddedList` | frontend/src/components/RightPanel.jsx:53-58 | An add saves nothing exactly when the trimmed city is blank or already present. Otherwise it saves a list of at most 12 names: the trimmed city first, then the old list's first min(n, 11) names. |
| `RightPanel.AddKeepsNoDuplicates` | frontend/src/components/RightPanel.jsx:56-57 | A list with no duplicates has none after an add. A well-formed list (no duplicates, at most 12 names) stays well-formed. |
| `RightPanel.Starred` | frontend/src/components/RightPanel.jsx:121 | The star shows filled when the trimmed current city is a favorite. Whitespace around the city never changes the star, and an empty list never stars. |
| `RightPanel.AfterAdd` | frontend/src/components/RightPanel.jsx:53-58 | After an add, a non-blank city is starred. Every name was there before or is the new city. A list of at most 12 names stays within 12. Adding a starred city changes nothing. |
| `RightPanel.AddThenStarred` | frontend/src/components/RightPanel.jsx:53-58 | After adding a non-blank city, the star shows filled for it. An added city is element 0. |
| `RightPanel.Without` | frontend/src/components/RightPanel.jsx:61-62 | Removing keeps exactly the names other than `city`. It never lengthens the list. |
| `RightPanel.WithoutKeepsOrder` | frontend/src/components/RightPanel.jsx:62 | The remaining favorites keep their relative order (the result is a subsequence). |
| `RightPanel.WithoutCounts` | frontend/src/components/RightPanel.jsx:62 | Every copy of `city` is dropped. Every other name keeps its number of occurrences. |
| `RightPanel.WithoutAbsent` | frontend/src/components/RightPanel.jsx:62 | Removing a name that is not a favorite leaves the list unchanged. |
| `RightPanel.WithoutKeepsNoDuplicates` | frontend/src/components/RightPanel.jsx:62 | Removing keeps the list free of duplicates and keeps it well-formed. |
| `RightPanel.RemoveThenNotStarred` | frontend/src/components/RightPanel.jsx:121 | After removing the trimmed current city, the star shows empty. |
| `RightPanel.StoredFavorites` | frontend/src/components/RightPanel.jsx:28-36 | The list read at mount is the stored `weather-favorites` list when one is stored, and empty otherwise. |
| `RightPanel.FavoritesPanel.constructor` | frontend/src/components/RightPanel.jsx:26-36 | On mount, the state takes the stored list when one is stored, and is empty otherwise. State and storage agree. |
| `RightPanel.FavoritesPanel.SaveFavorites` | frontend/src/components/RightPanel.jsx:44-51 | The same list goes to the state and to the `weather-favorites` entry. Other storage keys are unchanged. |
| `RightPanel.FavoritesPanel.AddFavorite` | frontend/src/components/RightPanel.jsx:53-59 | The state becomes the list after the add. Storage is written only when something was added, and then with exactly that list. |
| `RightPanel.FavoritesPanel.RemoveFavorite` | frontend/src/components/RightPanel.jsx:61-64 | The state becomes the filtered list, and the same list is stored, even when nothing matched. |
| `RightPanel.FavoritesPanel.ClearFavorites` | frontend/src/components/RightPanel.jsx:148 | Clear stores and shows the empty list. |
| `Text.Trim` | frontend/src/components/RightPanel.jsx:54-55 | `trim()` returns a slice of the text with only whitespace cut from either end. The result is empty exactly when the text is all whitespace, and otherwise its first and last characters are not whitespace. |
| `Text.TrimIdempotent` | frontend/src/components/RightPanel.jsx:121 | Trimming twice equals trimming once. |
| `Text.IncludesIff` | frontend/src/App.jsx:52-54 | `includes` finds a word exactly when the word occurs at some position of the text. |
| `Text.ToLower` | frontend/src/App.jsx:51 | `toLowerCase()` keeps the length, lower-cases each ASCII letter in place, and leaves no ASCII capital in the result. |
| `Seqs.Take` | frontend/src/components/RightPanel.jsx:57 | `slice(0, n)` returns the prefix of length min(length, n), as used for the 12 favorites and the 7 days (frontend/src/pages/Trends.jsx:30). |
| `JsValues.Member` | frontend/src/pages/Trends.jsx:31-51 | `d.key` throws exactly when `d` is null or undefined; otherwise it is the object's member when present and undefined in every other case. The same read gives `json.daily` at frontend/src/pages/Trends.jsx:18. |
| `JsValues.OptionalMember` | frontend/src/App.jsx:51 | `data?.condition` is undefined when `data` is null or undefined, and otherwise equals the plain member read. |
| `App.Classify` | frontend/src/App.jsx:50-56 | The result is rainy exactly when the lower-cased text contains rain, shower or thunder (so it wins over cloud and night). It is cloudy exactly when there is no rain-family word and cloud occurs. It is night exactly when neither occurs and night does. It is sunny otherwise. The result is always a key of `bgStyles`. |
| `App.ClassifyIgnoresCase` | frontend/src/App.jsx:51 | classify(s) = classify(lowercase(s)). |
| `App.EmptyConditionIsSunny` | frontend/src/App.jsx:50-56 | The empty condition classifies as sunny. |
| `App.ConditionText` | frontend/src/App.jsx:51 | A missing or falsy `data?.condition` reads as "". A string condition reads as itself. |
| `App.Background` | frontend/src/App.jsx:50-56 | `updateBackground` throws exactly when the condition is truthy but not a string. A string condition gives `Classify` of that string. A missing or falsy condition gives sunny. The category is always a key of `bgStyles`. |
| `App.BackgroundClass` | frontend/src/App.jsx:87 | The rendered class is always one of the four gradients: the category's own when it is a key of `bgStyles`, else the sunny one, for a category that names no built-in property of a JavaScript object. |
| `App.RequestUrl` | frontend/src/App.jsx:20-38 | Every request goes to `/api/weather?`. A city target carries exactly the encoded name after `city=`. A coordinate target is `lat=` with the latitude's text, then `&lon=` followed by exactly the longitude's text. |
| `App.NoConditionIsSunny` | frontend/src/App.jsx:50-56 | Null data, or data with a missing or empty condition, gives the sunny background. |
| `App.InitialTarget` | frontend/src/App.jsx:59-75 | A granted position is fetched by coordinates. A denial or error, or no geolocation support, fetches "Delhi". A prompt that is never answered fetches nothing, since no timeout is given. |
| `App.FetchStarted` | frontend/src/App.jsx:20-38 | Starting a fetch sets loading and changes nothing else. |
| `App.FetchResolved` | frontend/src/App.jsx:20-47 | Either outcome clears loading. A rejection keeps `weatherData` and `bgCond`. A parsed body replaces `weatherData` wholesale, with no status check. Then the background is the classified condition, or unchanged when classifying throws. A valid background stays valid. |
| `App.SearchSubmitted` | frontend/src/App.jsx:78-84 | Blank text starts nothing and changes nothing. Otherwise the fetch for the trimmed text starts and the search text becomes "". |
| `App.ReplayKeepsValid` | frontend/src/App.jsx:50-56 | Any sequence of typing, submits, fetch starts and fetch settlements keeps `bgCond` a key of `bgStyles`. |
| `App.ReachableStatesStyled` | frontend/src/App.jsx:12-17 | In every reachable state the render's lookup `bgStyles[bgCond]` succeeds, so its sunny fallback is never used. |
| `App.WeatherApp.constructor` | frontend/src/App.jsx:7-10 | The initial state: no data, empty search, not loading, sunny. |
| `App.WeatherApp.SetSearch` | frontend/src/App.jsx:96 | Typing changes only the search text. |
| `App.WeatherApp.FetchByCity` | frontend/src/App.jsx:20-23 | The fetch starts and requests `/api/weather?city=` plus the encoded name. |
| `App.WeatherApp.FetchByCoords` | frontend/src/App.jsx:35-38 | The fetch starts and requests `/api/weather?lat=…&lon=…`. |
| `App.WeatherApp.UpdateBackground` | frontend/src/App.jsx:50-56 | Sets `bgCond` to the classified condition. When `toLowerCase` is missing it throws and nothing changes. |
| `App.WeatherApp.ResolveFetch` | frontend/src/App.jsx:24-31 | Settling a fetch moves the state as `FetchResolved` says. |
| `App.WeatherApp.Mount` | frontend/src/App.jsx:59-75 | The mount effect starts the fetch for `InitialTarget` and returns its URL. While the prompt is unanswered it starts nothing, changes nothing and requests nothing. |
| `App.WeatherApp.HandleSearchSubmit` | frontend/src/App.jsx:78-84 | The state moves as `SearchSubmitted` says. The URL is for the trimmed text, or there is no request when the text is blank. |
| `WeatherController.QParam` | backend/demo/src/main/java/com/example/demo/WeatherController.java:51-61 | A non-blank city gives its encoding, even when lat and lon are given. Otherwise a complete lat/lon pair gives its formatting. There is no q exactly when neither holds. |
| `WeatherController.KeyNamesDistinct` | backend/demo/src/main/java/com/example/demo/WeatherController.java:72-116 | No two response keys share a JSON member name, so a map over keys is a map over the names the source puts. |
| `WeatherController.ForecastUrl` | backend/demo/src/main/java/com/example/demo/WeatherController.java:64-65 | The upstream URL starts with the base URL, `/forecast.json?key=`, the API key and `&q=`, and ends with `&days=3&aqi=no&alerts=yes`. |
| `WeatherController.ForecastUrlAsksThreeDays` | backend/demo/src/main/java/com/example/demo/WeatherController.java:64-65 | The upstream URL contains `&q=<q>&days=3&` for the chosen q. |
| `WeatherController.NormalizeIcon` | backend/demo/src/main/java/com/example/demo/WeatherController.java:91-92 | "https:" is prepended exactly when the text starts with "//". Otherwise the text is unchanged. The result never starts with "//". |
| `WeatherController.NormalizeIconIdempotent` | backend/demo/src/main/java/com/example/demo/WeatherController.java:91-93 | Normalising twice equals normalising once. |
| `WeatherController.DayEntry` | backend/demo/src/main/java/com/example/demo/WeatherController.java:100-111 | A day map has exactly the six day keys and an icon that is not protocol-relative. A missing average, maximum or minimum temperature gives NaN. A missing date reads "", and a null date reads "null" (`asText()` has no default). A missing condition text or icon reads "". |
| `WeatherController.ForecastEntries` | backend/demo/src/main/java/com/example/demo/WeatherController.java:96-116 | There is one day map per `forecastday` element, in order, when that node is an array. The list is empty otherwise. |
| `Jackson.Path` | backend/demo/src/main/java/com/example/demo/WeatherController.java:71 | `path` gives an object node's member, and MissingNode for an absent member or a node that is not an object. |
| `Jackson.AsText` | backend/demo/src/main/java/com/example/demo/WeatherController.java:101 | `asText()` gives a text node's text, "null" for NullNode, "" for MissingNode and containers, and the decimal digits of an integral node. |
| `Jackson.AsTextOr` | backend/demo/src/main/java/com/example/demo/WeatherController.java:73 | `asText(default)` gives the default for MissingNode and NullNode, and a text node's text. |
| `Jackson.WrapInt32Narrows` | backend/demo/src/main/java/com/example/demo/WeatherController.java:81 | Narrowing to `int` keeps values in range and otherwise agrees modulo 2^32. |
| `Jackson.DoubleToInt32Truncates` | backend/demo/src/main/java/com/example/demo/WeatherController.java:81 | A double narrowed to `int` truncates toward zero and saturates at the ends of the range. |
| `Jackson.AsIntOr` | backend/demo/src/main/java/com/example/demo/WeatherController.java:81-82 | `asInt(default)` gives the default for MissingNode, NullNode and containers, narrows integral and floating nodes, and reads booleans as 1 and 0. |
| `Jackson.AsDoubleOr` | backend/demo/src/main/java/com/example/demo/WeatherController.java:79-80 | `asDouble(default)` gives the default for MissingNode, NullNode and containers, a floating node's value, an integral node's value, and 1.0 or 0.0 for booleans. |
| `WeatherController.SuccessBody` | backend/demo/src/main/java/com/example/demo/WeatherController.java:70-116 | A successful body has exactly the fourteen response keys, an icon that is not protocol-relative, and the forecast list `ForecastEntries`. |
| `WeatherController.Respond` | backend/demo/src/main/java/com/example/demo/WeatherController.java:50-127 | Every reply is 200, 400 or 500. It is 400 exactly when there is no q. The exception escapes exactly when the upstream call fails with a null message. A 200 body has exactly the fourteen response keys. A missing q gives 400 with the "Missing parameters" body, and a parsed answer gives 200 with `SuccessBody` of exactly that tree. |
| `WeatherController.MissingParametersMakesNoCall` | backend/demo/src/main/java/com/example/demo/WeatherController.java:56-60 | A null or blank city with lat or lon missing gives 400 "Missing parameters". The answer does not depend on the upstream service at all. |
| `WeatherController.CityTakesPrecedence` | backend/demo/src/main/java/com/example/demo/WeatherController.java:52-55 | With a non-blank city the coordinates do not affect the answer. |
| `WeatherController.OnlyTheForecastUrlIsAsked` | backend/demo/src/main/java/com/example/demo/WeatherController.java:64-67 | The answer depends only on the upstream service's reply to the forecast URL for the chosen q. |
| `WeatherController.FailureIsServerError` | backend/demo/src/main/java/com/example/demo/WeatherController.java:121-126 | An exception with a message gives 500, with error "Failed to fetch weather" and the message as details. With a null message the exception escapes. |
| `WeatherController.SuccessShape` | backend/demo/src/main/java/com/example/demo/WeatherController.java:67-119 | A parsed upstream body always gives 200 with exactly the fourteen response keys. |
| `WeatherController.MissingLocationDefaults` | backend/demo/src/main/java/com/example/demo/WeatherController.java:71-75 | A missing city name, region or country reads as "". |
| `WeatherController.MissingCurrentDefaults` | backend/demo/src/main/java/com/example/demo/WeatherController.java:78-93 | A missing wind direction, condition text or icon reads as "". Missing humidity and pressure read as -1. A missing temperature reads as NaN. |
| `WeatherController.MissingMeasureDefaults` | backend/demo/src/main/java/com/example/demo/WeatherController.java:80-86 | A missing feels-like temperature, wind speed, visibility or UV index reads as NaN. |
| `WeatherController.PresentTextFields` | backend/demo/src/main/java/com/example/demo/WeatherController.java:73-93 | A city name, region, country, wind direction or condition text supplied as a text node is passed on unchanged; a text icon is passed on after icon normalisation. |
| `WeatherController.PresentCurrentNumbers` | backend/demo/src/main/java/com/example/demo/WeatherController.java:79-86 | A temperature, feels-like, wind speed, visibility or UV index supplied as a floating node is passed on as that value (an integral temperature as its value too). A humidity or pressure supplied as an integral node within int range is passed on as itself. |
| `WeatherController.PresentDayFields` | backend/demo/src/main/java/com/example/demo/WeatherController.java:101-111 | A day's text date, floating average/maximum/minimum temperatures and text condition are passed on unchanged; a text icon after icon normalisation. |
| `WeatherController.IconsAreAbsolute` | backend/demo/src/main/java/com/example/demo/WeatherController.java:91-111 | Neither the current icon nor any day's icon in a response is protocol-relative. |
| `WeatherController.ProjectDay` | backend/demo/src/main/java/com/example/demo/WeatherController.java:100-111 | The `put`s of one loop iteration build exactly `DayEntry` of the day node. |
| `WeatherController.ForecastLoop` | backend/demo/src/main/java/com/example/demo/WeatherController.java:96-114 | The loop builds exactly `ForecastEntries` of the root. |
| `WeatherController.ProjectBody` | backend/demo/src/main/java/com/example/demo/WeatherController.java:70-116 | The successive `put`s into `out`, with the forecast loop, build exactly `SuccessBody` of the tree. |
| `WeatherController.GetWeather` | backend/demo/src/main/java/com/example/demo/WeatherController.java:45-127 | The method's response equals `Respond`: 400 without parameters, 200 with `SuccessBody` of the parsed tree, 500 or an escaping exception on failure. |
| `Trends.UnitsParam` | frontend/src/pages/Trends.jsx:15 | Unit "C" maps to `metric` and every other unit maps to `imperial`. |
| `Trends.ForecastUrl` | frontend/src/pages/Trends.jsx:15 | The request is `/api/forecast?city=` with the encoded city, then `&units=` followed by exactly `UnitsParam` of the unit. |
| `Trends.DefaultPropsAskMetric` | frontend/src/pages/Trends.jsx:5-15 | With the default props the page asks for New Delhi in metric units. |
| `Trends.CaughtMessage` | frontend/src/pages/Trends.jsx:21 | The caught error's message is used when non-empty, else "Failed to fetch forecast". It is never empty. |
| `Trends.FetchStarted` | frontend/src/pages/Trends.jsx:13-14 | A fetch starts with loading true and error "". `daily` is unchanged. |
| `Trends.FetchResolved` | frontend/src/pages/Trends.jsx:15-24 | Loading ends on every outcome. A non-ok response sets "Forecast fetch failed" and keeps `daily`. A rejection sets its caught message and keeps `daily`. A null body sets the property-read error's message. A body with no or falsy `daily` sets `[]`, and otherwise sets its `daily`. |
| `Trends.FetchErrorIffFailed` | frontend/src/pages/Trends.jsx:13-24 | After a whole fetch, the error is non-empty exactly when the fetch failed. |
| `Trends.Days` | frontend/src/pages/Trends.jsx:30 | For an array, `days` is its prefix of length min(7, length). A falsy `daily` gives no days. A truthy non-array makes rendering throw. |
| `Trends.Category` | frontend/src/pages/Trends.jsx:31-34 | The label is today exactly when `d.dt` is falsy, and otherwise it is made from that `d.dt`. Reading a null day throws. |
| `Trends.HumidityPoint` | frontend/src/pages/Trends.jsx:51 | Reading a null day throws. A humidity entry is null exactly when `d.humidity` is null or undefined, and otherwise it is `d.humidity`. |
| `Trends.TemperaturePoint` | frontend/src/pages/Trends.jsx:42-43 | Reading a null day throws. A temperature entry is a value exactly when `d.temp` is truthy and so is `d.temp.day ?? d.temp`, and that value is `d.temp.day ?? d.temp`. |
| `Trends.ChartData` | frontend/src/pages/Trends.jsx:31-51 | Categories, temperature data and humidity data each have one entry per day. They exist exactly when no day is null. Entry i of each is `Category`, `TemperaturePoint` and `HumidityPoint` of day i. A humidity entry is null exactly when `d.humidity` is nullish. |
| `Trends.Render` | frontend/src/pages/Trends.jsx:58-77 | The loading and error notes follow the state. The charts and the no-data note never show together. One of them shows exactly when the page is neither loading nor in error. Charts need at least one day, and the no-data note needs none. |
| `Trends.ChartsOrNoData` | frontend/src/pages/Trends.jsx:58-77 | Not loading and no error: the charts show exactly when `days` is non-empty, and the no-data note shows otherwise. |
| `Trends.TrendsPage.constructor` | frontend/src/pages/Trends.jsx:6-8 | The initial state: not loading, no error, an empty daily list. |
| `Trends.TrendsPage.StartFetch` | frontend/src/pages/Trends.jsx:13-15 | Starts as `FetchStarted` says. The URL carries the encoded city and the units string. |
| `Trends.TrendsPage.ResolveFetch` | frontend/src/pages/Trends.jsx:16-24 | The try, catch and finally move the state as `FetchResolved` says. |

## Left out

- Rendering, styling, icons, the panel's layout and collapse toggle, scrolling on a favorite click, and the `onSelectCity` callback: these are presentation and callbacks into code outside the model.
- The clock's one-second timer and the locale-dependent time and date text: these are timer-driven and locale-dependent. `DateLabel` records only which timestamp a label is made from.
- `Math.round` on temperatures, and the number-to-text conversions (`%f`, template literals, `Double.toString`): floating point. Temperature points carry the value that would be rounded. Formatting functions are parameters.
- Jackson.AsDoubleOr: the widening of very large integers to double is taken as exact, because floating-point rounding is not modelled.
- `fetch`, `RestTemplate`, `localStorage`, JSON parsing and stringifying, and `navigator.geolocation` are I/O. They appear as outcomes, a URL-to-outcome function, and a key-to-list map.
- The favorites storage: a stored text that does not parse as a list of strings, and a failing `setItem` (quota), are not modelled. The storage holds decoded lists, and writes always succeed.
- Overlapping fetches (the last to settle wins) and the effect re-running on a city or unit change: this is concurrency. Each fetch is a start step and a settle step, and these may interleave in any order (`App.Replay`), but there is no scheduler.
- Spring's request binding: a `lat` or `lon` that does not parse as a Java `Double` is rejected before `getWeather` runs. The texts "NaN" and "Infinity" do parse, so the coordinates are `DoubleVal`s, which include NaN and the infinities.
- `App.Classify`: lower-casing is modelled for ASCII letters only. Full Unicode case mapping is not modelled.
- `App.BackgroundClass`: a category naming a built-in object property ("constructor", "toString") would render that inherited member; the page never holds such a category, as `App.ReachableStatesStyled` proves.
- `Text.ToLower`: only ASCII letters are lower-cased; other capitals (accented letters, for example) are left as they are, where `toLowerCase()` would map them.
- `Text.Trim`: JavaScript's whitespace is modelled as the fixed set of characters in `Text.IsJsWhitespace`. Java's `isBlank` is modelled with `Character.isWhitespace`'s set.
- App.WeatherApp.FetchByCity: strings are sequences of Unicode scalar values, so a text holding a lone surrogate cannot arise. In the source, `encodeURIComponent` throws URIError on one. The fetch then makes no request and only resets loading. The model always returns a URL.
- Trends.TrendsPage.StartFetch: for the same reason, the URIError that would set the error to the engine's "URI malformed" text is not modelled. The model always returns a URL.
- Trends.FetchResolved: the error text for a null body is V8's wording ("Cannot read properties of null (reading 'daily')"). Other JavaScript engines word this TypeError differently.
- The trend chart component and its options object: this wraps a charting library that is not part of this model.
