/**
 * The back end's one endpoint, GET /api/weather: choose the upstream `q` parameter from
 * a city or a coordinate pair, call the weather service's forecast endpoint, and project
 * the current conditions and the daily forecast out of its JSON into a flat response.
 */
module WeatherController {
  import opened Wrappers
  import opened Text
  import opened Jackson

  /**
   * The keys the controller puts into its response maps (Java's `Map<String, Object>`);
   * KeyName gives the JSON member name of each.
   */
  datatype Key =
    | City | Region | Country | TempC | FeelslikeC | Humidity | PressureMb | WindKph | WindDir
    | VisKm | Uv | Condition | Icon | Forecast
    | Date | AvgTempC | MaxTempC | MinTempC
    | Error | Message | Details

  /** The JSON member name of each key; no two keys share a name. */
  function KeyName(k: Key): string {
    match k
    case City => "city"
    case Region => "region"
    case Country => "country"
    case TempC => "temp_c"
    case FeelslikeC => "feelslike_c"
    case Humidity => "humidity"
    case PressureMb => "pressure_mb"
    case WindKph => "wind_kph"
    case WindDir => "wind_dir"
    case VisKm => "vis_km"
    case Uv => "uv"
    case Condition => "condition"
    case Icon => "icon"
    case Forecast => "forecast"
    case Date => "date"
    case AvgTempC => "avg_temp_c"
    case MaxTempC => "max_temp_c"
    case MinTempC => "min_temp_c"
    case Error => "error"
    case Message => "message"
    case Details => "details"
  }

  /** Keys with the same JSON name are the same key, so a map over Key is a map over names. */
  lemma KeyNamesDistinct(k1: Key, k2: Key)
    requires KeyName(k1) == KeyName(k2)
    ensures k1 == k2
  {
  }

  /** A value put into a response map. */
  datatype OutVal =
    | OText(s: string)
    | OInt(i: Int32)
    | ODouble(d: DoubleVal)
    | OList(items: seq<map<Key, OutVal>>)

  /** StatusCode with a body, or an exception that leaves the method. */
  datatype Response =
    | Reply(status: int, body: map<Key, OutVal>)
    | Escaped(exception: string)

  /** The two injected settings `weatherapi.base.url` and `weatherapi.api.key`. */
  datatype Settings = Settings(baseUrl: string, apiKey: string)

  /**
   * What `restTemplate.getForObject` followed by `objectMapper.readTree` yields: a tree, or
   * an exception with its (possibly null) message.
   */
  datatype Upstream = Parsed(root: JsonNode) | Failed(message: Option<string>)

  /**
   * The JDK calls the controller makes: `URLEncoder.encode(city, UTF_8)`,
   * `String.format("%f,%f", lat, lon)` and the number conversions Jackson relies on.
   */
  datatype Foreign = Foreign(
    urlEncode: string -> string,
    formatCoords: (DoubleVal, DoubleVal) -> string,
    coerce: Coercions)

  const MissingParametersBody: map<Key, OutVal> := map[
    Error := OText("Missing parameters"),
    Message := OText("Please provide either city or lat & lon")]

  function FailureBody(message: string): map<Key, OutVal> {
    map[Error := OText("Failed to fetch weather"), Details := OText(message)]
  }

  /** The keys of a successful response. */
  const ResponseKeys: set<Key> := {
    City, Region, Country, TempC, FeelslikeC, Humidity, PressureMb, WindKph, WindDir, VisKm, Uv,
    Condition, Icon, Forecast}

  /** The keys of one forecast day. */
  const DayKeys: set<Key> := {Date, AvgTempC, MaxTempC, MinTempC, Condition, Icon}

  /**
   * The `q` parameter: a non-blank city (URL-encoded) takes precedence, then a complete
   * coordinate pair; None when neither is supplied.
   */
  function QParam(city: Option<string>, lat: Option<DoubleVal>, lon: Option<DoubleVal>, f: Foreign): (q: Option<string>)
    ensures city.Some? && !IsJavaBlank(city.value) ==> q == Some(f.urlEncode(city.value))
    ensures (city.None? || IsJavaBlank(city.value)) && lat.Some? && lon.Some? ==>
              q == Some(f.formatCoords(lat.value, lon.value))
    ensures q.None? <==> (city.None? || IsJavaBlank(city.value)) && (lat.None? || lon.None?)
  {
    if city.Some? && !IsJavaBlank(city.value) then Some(f.urlEncode(city.value))
    else if lat.Some? && lon.Some? then Some(f.formatCoords(lat.value, lon.value))
    else None
  }

  /** The forecast endpoint's URL for a chosen `q`. */
  function ForecastUrl(settings: Settings, q: string): (url: string)
    ensures StartsWith(url, settings.baseUrl + "/forecast.json?key=" + settings.apiKey + "&q=")
    ensures |url| >= 25 && url[|url| - 25..] == "&days=3&aqi=no&alerts=yes"
  {
    settings.baseUrl + "/forecast.json?key=" + settings.apiKey + "&q=" + q + "&days=3&aqi=no&alerts=yes"
  }

  /** The URL asks for three days of forecast for exactly `q`. */
  lemma ForecastUrlAsksThreeDays(settings: Settings, q: string)
    ensures Includes(ForecastUrl(settings, q), "&q=" + q + "&days=3&")
  {
    var a := settings.baseUrl + "/forecast.json?key=" + settings.apiKey;
    var t := "&q=" + q + "&days=3&";
    var b := "aqi=no&alerts=yes";
    assert "&days=3&aqi=no&alerts=yes" == "&days=3&" + b;
    assert ForecastUrl(settings, q) == a + t + b;
    IncludesInfix(a, t, b);
  }

  /** An icon reference the service gives as protocol-relative ("//cdn...") is made https. */
  function NormalizeIcon(raw: string): (r: string)
    ensures StartsWith(raw, "//") ==> r == "https:" + raw
    ensures !StartsWith(raw, "//") ==> r == raw
    ensures !StartsWith(r, "//")
  {
    if StartsWith(raw, "//") then
      var r := "https:" + raw;
      assert r[0] == 'h';
      r
    else raw
  }

  lemma NormalizeIconIdempotent(raw: string)
    ensures NormalizeIcon(NormalizeIcon(raw)) == NormalizeIcon(raw)
  {
  }

  /** One element of `forecast.forecastday` projected into a day map. */
  function DayEntry(dayNode: JsonNode, c: Coercions): (day: map<Key, OutVal>)
    ensures day.Keys == DayKeys
    ensures day[Icon].OText? && !StartsWith(day[Icon].s, "//")
    ensures Path(Path(dayNode, "day"), "avgtemp_c").MissingNode? ==> day[AvgTempC] == ODouble(NaN)
    ensures Path(Path(dayNode, "day"), "maxtemp_c").MissingNode? ==> day[MaxTempC] == ODouble(NaN)
    ensures Path(Path(dayNode, "day"), "mintemp_c").MissingNode? ==> day[MinTempC] == ODouble(NaN)
    ensures Path(dayNode, "date").MissingNode? ==> day[Date] == OText("")
    ensures Path(dayNode, "date").NullNode? ==> day[Date] == OText("null")
    ensures Path(Path(Path(dayNode, "day"), "condition"), "text").MissingNode? ==> day[Condition] == OText("")
    ensures Path(Path(Path(dayNode, "day"), "condition"), "icon").MissingNode? ==> day[Icon] == OText("")
  {
    var dayInfo := Path(dayNode, "day");
    var condition := Path(dayInfo, "condition");
    map[
      Date := OText(AsText(Path(dayNode, "date"), c)),
      AvgTempC := ODouble(AsDoubleOr(Path(dayInfo, "avgtemp_c"), NaN, c)),
      MaxTempC := ODouble(AsDoubleOr(Path(dayInfo, "maxtemp_c"), NaN, c)),
      MinTempC := ODouble(AsDoubleOr(Path(dayInfo, "mintemp_c"), NaN, c)),
      Condition := OText(AsTextOr(Path(condition, "text"), "", c)),
      Icon := OText(NormalizeIcon(AsTextOr(Path(condition, "icon"), "", c)))]
  }

  /** The day maps, one per `forecastday` element in order when it is an array, else none. */
  function ForecastEntries(root: JsonNode, c: Coercions): (days: seq<map<Key, OutVal>>)
    ensures var node := Path(Path(root, "forecast"), "forecastday");
            if IsArray(node) then
              |days| == |node.elements| && forall i :: 0 <= i < |days| ==> days[i] == DayEntry(node.elements[i], c)
            else days == []
  {
    var node := Path(Path(root, "forecast"), "forecastday");
    if IsArray(node) then seq(|node.elements|, i requires 0 <= i < |node.elements| => DayEntry(node.elements[i], c))
    else []
  }

  /** The whole body of a successful response. */
  function SuccessBody(root: JsonNode, c: Coercions): (body: map<Key, OutVal>)
    ensures body.Keys == ResponseKeys
    ensures body[Forecast] == OList(ForecastEntries(root, c))
    ensures body[Icon].OText? && !StartsWith(body[Icon].s, "//")
  {
    var location := Path(root, "location");
    var current := Path(root, "current");
    var condition := Path(current, "condition");
    map[
      City := OText(AsTextOr(Path(location, "name"), "", c)),
      Region := OText(AsTextOr(Path(location, "region"), "", c)),
      Country := OText(AsTextOr(Path(location, "country"), "", c)),
      TempC := ODouble(AsDoubleOr(Path(current, "temp_c"), NaN, c)),
      FeelslikeC := ODouble(AsDoubleOr(Path(current, "feelslike_c"), NaN, c)),
      Humidity := OInt(AsIntOr(Path(current, "humidity"), -1, c)),
      PressureMb := OInt(AsIntOr(Path(current, "pressure_mb"), -1, c)),
      WindKph := ODouble(AsDoubleOr(Path(current, "wind_kph"), NaN, c)),
      WindDir := OText(AsTextOr(Path(current, "wind_dir"), "", c)),
      VisKm := ODouble(AsDoubleOr(Path(current, "vis_km"), NaN, c)),
      Uv := ODouble(AsDoubleOr(Path(current, "uv"), NaN, c)),
      Condition := OText(AsTextOr(Path(condition, "text"), "", c)),
      Icon := OText(NormalizeIcon(AsTextOr(Path(condition, "icon"), "", c))),
      Forecast := OList(ForecastEntries(root, c))]
  }

  /** The response to one request, given how the upstream service answers each URL. */
  function Respond(city: Option<string>, lat: Option<DoubleVal>, lon: Option<DoubleVal>,
                   settings: Settings, f: Foreign, upstream: string -> Upstream): (r: Response)
    ensures r.Reply? ==> r.status == 200 || r.status == 400 || r.status == 500
    ensures (r.Reply? && r.status == 400) <==> QParam(city, lat, lon, f).None?
    ensures r.Escaped? <==> QParam(city, lat, lon, f).Some?
                            && upstream(ForecastUrl(settings, QParam(city, lat, lon, f).value)) == Failed(None)
    ensures r.Reply? && r.status == 200 ==> r.body.Keys == ResponseKeys
    ensures QParam(city, lat, lon, f).None? ==> r == Reply(400, MissingParametersBody)
    ensures QParam(city, lat, lon, f).Some? && upstream(ForecastUrl(settings, QParam(city, lat, lon, f).value)).Parsed? ==>
              r == Reply(200, SuccessBody(upstream(ForecastUrl(settings, QParam(city, lat, lon, f).value)).root, f.coerce))
  {
    match QParam(city, lat, lon, f)
    case None => Reply(400, MissingParametersBody)
    case Some(q) =>
      match upstream(ForecastUrl(settings, q))
      case Parsed(root) => Reply(200, SuccessBody(root, f.coerce))
      case Failed(Some(m)) => Reply(500, FailureBody(m))
      case Failed(None) => Escaped("NullPointerException")
  }

  /** Without a usable city or coordinate pair the answer is 400 and the service is never asked. */
  lemma MissingParametersMakesNoCall(city: Option<string>, lat: Option<DoubleVal>, lon: Option<DoubleVal>,
                                     settings: Settings, f: Foreign, u1: string -> Upstream, u2: string -> Upstream)
    requires city.None? || IsJavaBlank(city.value)
    requires lat.None? || lon.None?
    ensures Respond(city, lat, lon, settings, f, u1) == Reply(400, MissingParametersBody)
    ensures Respond(city, lat, lon, settings, f, u1) == Respond(city, lat, lon, settings, f, u2)
  {
  }

  /** A non-blank city wins over a coordinate pair: the coordinates do not affect the answer. */
  lemma CityTakesPrecedence(city: string, lat1: Option<DoubleVal>, lon1: Option<DoubleVal>, lat2: Option<DoubleVal>, lon2: Option<DoubleVal>,
                            settings: Settings, f: Foreign, upstream: string -> Upstream)
    requires !IsJavaBlank(city)
    ensures Respond(Some(city), lat1, lon1, settings, f, upstream) == Respond(Some(city), lat2, lon2, settings, f, upstream)
  {
  }

  /** Once `q` is chosen, the answer depends on nothing but the service's answer to the forecast URL for `q`. */
  lemma OnlyTheForecastUrlIsAsked(city: Option<string>, lat: Option<DoubleVal>, lon: Option<DoubleVal>,
                                  settings: Settings, f: Foreign, u1: string -> Upstream, u2: string -> Upstream)
    requires QParam(city, lat, lon, f).Some?
    requires u1(ForecastUrl(settings, QParam(city, lat, lon, f).value)) == u2(ForecastUrl(settings, QParam(city, lat, lon, f).value))
    ensures Respond(city, lat, lon, settings, f, u1) == Respond(city, lat, lon, settings, f, u2)
  {
  }

  /**
   * Every exception from the call or the parse becomes a 500 with "Failed to fetch weather",
   * as long as it carries a message; with a null message `Map.of` itself throws.
   */
  lemma FailureIsServerError(city: Option<string>, lat: Option<DoubleVal>, lon: Option<DoubleVal>,
                             settings: Settings, f: Foreign, upstream: string -> Upstream)
    requires QParam(city, lat, lon, f).Some?
    requires upstream(ForecastUrl(settings, QParam(city, lat, lon, f).value)).Failed?
    ensures var message := upstream(ForecastUrl(settings, QParam(city, lat, lon, f).value)).message;
            var r := Respond(city, lat, lon, settings, f, upstream);
            if message.Some? then r.Reply? && r.status == 500 && r.body[Error] == OText("Failed to fetch weather")
                                  && r.body[Details] == OText(message.value)
            else r.Escaped?
  {
  }

  /** A parsed answer always gives 200 with the fourteen keys, whatever the tree's shape. */
  lemma SuccessShape(city: Option<string>, lat: Option<DoubleVal>, lon: Option<DoubleVal>,
                     settings: Settings, f: Foreign, upstream: string -> Upstream)
    requires QParam(city, lat, lon, f).Some?
    requires upstream(ForecastUrl(settings, QParam(city, lat, lon, f).value)).Parsed?
    ensures var r := Respond(city, lat, lon, settings, f, upstream);
            r.Reply? && r.status == 200 && r.body.Keys == ResponseKeys
  {
    var root := upstream(ForecastUrl(settings, QParam(city, lat, lon, f).value)).root;
    assert SuccessBody(root, f.coerce).Keys == ResponseKeys;
  }

  /** Each entry of a successful body, read off the map once for the lemmas about fields that follow. */
  lemma BodyEntries(root: JsonNode, c: Coercions)
    ensures var body := SuccessBody(root, c);
            var location := Path(root, "location");
            var current := Path(root, "current");
            var condition := Path(current, "condition");
            body[City] == OText(AsTextOr(Path(location, "name"), "", c))
            && body[Region] == OText(AsTextOr(Path(location, "region"), "", c))
            && body[Country] == OText(AsTextOr(Path(location, "country"), "", c))
            && body[TempC] == ODouble(AsDoubleOr(Path(current, "temp_c"), NaN, c))
            && body[FeelslikeC] == ODouble(AsDoubleOr(Path(current, "feelslike_c"), NaN, c))
            && body[Humidity] == OInt(AsIntOr(Path(current, "humidity"), -1, c))
            && body[PressureMb] == OInt(AsIntOr(Path(current, "pressure_mb"), -1, c))
            && body[WindKph] == ODouble(AsDoubleOr(Path(current, "wind_kph"), NaN, c))
            && body[WindDir] == OText(AsTextOr(Path(current, "wind_dir"), "", c))
            && body[VisKm] == ODouble(AsDoubleOr(Path(current, "vis_km"), NaN, c))
            && body[Uv] == ODouble(AsDoubleOr(Path(current, "uv"), NaN, c))
            && body[Condition] == OText(AsTextOr(Path(condition, "text"), "", c))
            && body[Icon] == OText(NormalizeIcon(AsTextOr(Path(condition, "icon"), "", c)))
  {
  }

  /** Absent location members read as "". */
  lemma MissingLocationDefaults(root: JsonNode, c: Coercions)
    ensures var body := SuccessBody(root, c);
            var location := Path(root, "location");
            (Path(location, "name").MissingNode? ==> body[City] == OText(""))
            && (Path(location, "region").MissingNode? ==> body[Region] == OText(""))
            && (Path(location, "country").MissingNode? ==> body[Country] == OText(""))
  {
    BodyEntries(root, c);
  }

  /** Absent current members read as "" for text, -1 for humidity and pressure, NaN for temperature. */
  lemma MissingCurrentDefaults(root: JsonNode, c: Coercions)
    ensures var body := SuccessBody(root, c);
            var current := Path(root, "current");
            (Path(current, "wind_dir").MissingNode? ==> body[WindDir] == OText(""))
            && (Path(Path(current, "condition"), "text").MissingNode? ==> body[Condition] == OText(""))
            && (Path(Path(current, "condition"), "icon").MissingNode? ==> body[Icon] == OText(""))
            && (Path(current, "humidity").MissingNode? ==> body[Humidity] == OInt(-1))
            && (Path(current, "pressure_mb").MissingNode? ==> body[PressureMb] == OInt(-1))
            && (Path(current, "temp_c").MissingNode? ==> body[TempC] == ODouble(NaN))
  {
    BodyEntries(root, c);
  }

  /** Absent current measurements read as NaN, the default `asDouble(Double.NaN)` is given. */
  lemma MissingMeasureDefaults(root: JsonNode, c: Coercions)
    ensures var body := SuccessBody(root, c);
            var current := Path(root, "current");
            (Path(current, "feelslike_c").MissingNode? ==> body[FeelslikeC] == ODouble(NaN))
            && (Path(current, "wind_kph").MissingNode? ==> body[WindKph] == ODouble(NaN))
            && (Path(current, "vis_km").MissingNode? ==> body[VisKm] == ODouble(NaN))
            && (Path(current, "uv").MissingNode? ==> body[Uv] == ODouble(NaN))
  {
    BodyEntries(root, c);
  }

  /** Location and current text members that the service supplies as text are passed on as they are. */
  lemma PresentTextFields(root: JsonNode, c: Coercions)
    ensures var body := SuccessBody(root, c);
            var location := Path(root, "location");
            var current := Path(root, "current");
            var condition := Path(current, "condition");
            (Path(location, "name").TextNode? ==> body[City] == OText(Path(location, "name").text))
            && (Path(location, "region").TextNode? ==> body[Region] == OText(Path(location, "region").text))
            && (Path(location, "country").TextNode? ==> body[Country] == OText(Path(location, "country").text))
            && (Path(current, "wind_dir").TextNode? ==> body[WindDir] == OText(Path(current, "wind_dir").text))
            && (Path(condition, "text").TextNode? ==> body[Condition] == OText(Path(condition, "text").text))
            && (Path(condition, "icon").TextNode? ==> body[Icon] == OText(NormalizeIcon(Path(condition, "icon").text)))
  {
    BodyEntries(root, c);
  }

  /**
   * Current measurements the service supplies as numbers are passed on: a floating or
   * integral node as that value, and an integral humidity or pressure that fits an int as itself.
   */
  lemma PresentCurrentNumbers(root: JsonNode, c: Coercions)
    ensures var body := SuccessBody(root, c);
            var current := Path(root, "current");
            (Path(current, "temp_c").DoubleNode? ==> body[TempC] == ODouble(Finite(Path(current, "temp_c").d)))
            && (Path(current, "temp_c").IntNode? ==> body[TempC] == ODouble(Finite(Path(current, "temp_c").i as real)))
            && (Path(current, "feelslike_c").DoubleNode? ==> body[FeelslikeC] == ODouble(Finite(Path(current, "feelslike_c").d)))
            && (Path(current, "wind_kph").DoubleNode? ==> body[WindKph] == ODouble(Finite(Path(current, "wind_kph").d)))
            && (Path(current, "vis_km").DoubleNode? ==> body[VisKm] == ODouble(Finite(Path(current, "vis_km").d)))
            && (Path(current, "uv").DoubleNode? ==> body[Uv] == ODouble(Finite(Path(current, "uv").d)))
            && (Path(current, "humidity").IntNode? && -0x8000_0000 <= Path(current, "humidity").i < 0x8000_0000 ==>
                  body[Humidity] == OInt(Path(current, "humidity").i))
            && (Path(current, "pressure_mb").IntNode? && -0x8000_0000 <= Path(current, "pressure_mb").i < 0x8000_0000 ==>
                  body[PressureMb] == OInt(Path(current, "pressure_mb").i))
  {
    BodyEntries(root, c);
  }

  /** A forecast day's date, temperatures and condition, when supplied, are passed on as they are. */
  lemma PresentDayFields(dayNode: JsonNode, c: Coercions)
    ensures var day := DayEntry(dayNode, c);
            var dayInfo := Path(dayNode, "day");
            var condition := Path(dayInfo, "condition");
            (Path(dayNode, "date").TextNode? ==> day[Date] == OText(Path(dayNode, "date").text))
            && (Path(dayInfo, "avgtemp_c").DoubleNode? ==> day[AvgTempC] == ODouble(Finite(Path(dayInfo, "avgtemp_c").d)))
            && (Path(dayInfo, "maxtemp_c").DoubleNode? ==> day[MaxTempC] == ODouble(Finite(Path(dayInfo, "maxtemp_c").d)))
            && (Path(dayInfo, "mintemp_c").DoubleNode? ==> day[MinTempC] == ODouble(Finite(Path(dayInfo, "mintemp_c").d)))
            && (Path(condition, "text").TextNode? ==> day[Condition] == OText(Path(condition, "text").text))
            && (Path(condition, "icon").TextNode? ==> day[Icon] == OText(NormalizeIcon(Path(condition, "icon").text)))
  {
    var day := DayEntry(dayNode, c);
    var dayInfo := Path(dayNode, "day");
    var condition := Path(dayInfo, "condition");
    assert day[Date] == OText(AsText(Path(dayNode, "date"), c));
    assert day[AvgTempC] == ODouble(AsDoubleOr(Path(dayInfo, "avgtemp_c"), NaN, c));
    assert day[MaxTempC] == ODouble(AsDoubleOr(Path(dayInfo, "maxtemp_c"), NaN, c));
    assert day[MinTempC] == ODouble(AsDoubleOr(Path(dayInfo, "mintemp_c"), NaN, c));
    assert day[Condition] == OText(AsTextOr(Path(condition, "text"), "", c));
    assert day[Icon] == OText(NormalizeIcon(AsTextOr(Path(condition, "icon"), "", c)));
  }

  /** No icon in a successful response, current or daily, is left protocol-relative. */
  lemma IconsAreAbsolute(root: JsonNode, c: Coercions)
    ensures var body := SuccessBody(root, c);
            body[Icon].OText? && !StartsWith(body[Icon].s, "//")
            && body[Forecast].OList?
            && forall i :: 0 <= i < |body[Forecast].items| ==>
                 Icon in body[Forecast].items[i] && body[Forecast].items[i][Icon].OText?
                 && !StartsWith(body[Forecast].items[i][Icon].s, "//")
  {
    var days: seq<map<Key, OutVal>> := ForecastEntries(root, c);
    var node := Path(Path(root, "forecast"), "forecastday");
    forall i | 0 <= i < |days|
      ensures Icon in days[i] && days[i][Icon].OText? && !StartsWith(days[i][Icon].s, "//")
    {
      assert days[i] == DayEntry(node.elements[i], c);
    }
  }

  /** The body of the forecast loop: one `day` map filled by successive `put`s. */
  method ProjectDay(dayNode: JsonNode, c: Coercions) returns (day: map<Key, OutVal>)
    ensures day == DayEntry(dayNode, c)
  {
    day := map[];
    day := day[Date := OText(AsText(Path(dayNode, "date"), c))];
    var dayInfo := Path(dayNode, "day");
    day := day[AvgTempC := ODouble(AsDoubleOr(Path(dayInfo, "avgtemp_c"), NaN, c))];
    day := day[MaxTempC := ODouble(AsDoubleOr(Path(dayInfo, "maxtemp_c"), NaN, c))];
    day := day[MinTempC := ODouble(AsDoubleOr(Path(dayInfo, "mintemp_c"), NaN, c))];
    var dcond := AsTextOr(Path(Path(dayInfo, "condition"), "text"), "", c);
    day := day[Condition := OText(dcond)];
    var dicon := AsTextOr(Path(Path(dayInfo, "condition"), "icon"), "", c);
    if StartsWith(dicon, "//") {
      dicon := "https:" + dicon;
    }
    day := day[Icon := OText(dicon)];
  }

  /** The forecast loop: one day map appended to the list per element of an array `forecastday`. */
  method ForecastLoop(root: JsonNode, c: Coercions) returns (forecastList: seq<map<Key, OutVal>>)
    ensures forecastList == ForecastEntries(root, c)
  {
    forecastList := [];
    var forecastDays := Path(Path(root, "forecast"), "forecastday");
    if IsArray(forecastDays) {
      var i := 0;
      while i < |forecastDays.elements|
        invariant 0 <= i <= |forecastDays.elements|
        invariant |forecastList| == i
        invariant forall k :: 0 <= k < i ==> forecastList[k] == DayEntry(forecastDays.elements[k], c)
      {
        var day := ProjectDay(forecastDays.elements[i], c);
        forecastList := forecastList + [day];
        i := i + 1;
      }
    }
  }

  /**
   * `getWeather(city, lat, lon)`: the HashMap `out` is filled by successive `put`s and the
   * forecast list is built by a loop over the `forecastday` array.
   */
  method GetWeather(city: Option<string>, lat: Option<DoubleVal>, lon: Option<DoubleVal>,
                    settings: Settings, f: Foreign, upstream: string -> Upstream) returns (resp: Response)
    ensures resp == Respond(city, lat, lon, settings, f, upstream)
  {
    var qParam: string;
    if city.Some? && !IsJavaBlank(city.value) {
      qParam := f.urlEncode(city.value);
    } else if lat.Some? && lon.Some? {
      qParam := f.formatCoords(lat.value, lon.value);
    } else {
      return Reply(400, MissingParametersBody);
    }

    var url := settings.baseUrl + "/forecast.json?key=" + settings.apiKey + "&q=" + qParam
               + "&days=3&aqi=no&alerts=yes";
    var answer := upstream(url);
    if answer.Failed? {
      if answer.message.None? {
        return Escaped("NullPointerException");
      }
      return Reply(500, FailureBody(answer.message.value));
    }
    var out := ProjectBody(answer.root, f.coerce);
    return Reply(200, out);
  }

  /** The successful path's `put`s into `out`, the forecast loop included. */
  method ProjectBody(root: JsonNode, c: Coercions) returns (out: map<Key, OutVal>)
    ensures out == SuccessBody(root, c)
  {
    var location := Path(root, "location");
    out := map[];
    out := out[City := OText(AsTextOr(Path(location, "name"), "", c))];
    out := out[Region := OText(AsTextOr(Path(location, "region"), "", c))];
    out := out[Country := OText(AsTextOr(Path(location, "country"), "", c))];

    var current := Path(root, "current");
    out := out[TempC := ODouble(AsDoubleOr(Path(current, "temp_c"), NaN, c))];
    out := out[FeelslikeC := ODouble(AsDoubleOr(Path(current, "feelslike_c"), NaN, c))];
    out := out[Humidity := OInt(AsIntOr(Path(current, "humidity"), -1, c))];
    out := out[PressureMb := OInt(AsIntOr(Path(current, "pressure_mb"), -1, c))];
    out := out[WindKph := ODouble(AsDoubleOr(Path(current, "wind_kph"), NaN, c))];
    out := out[WindDir := OText(AsTextOr(Path(current, "wind_dir"), "", c))];
    out := out[VisKm := ODouble(AsDoubleOr(Path(current, "vis_km"), NaN, c))];
    out := out[Uv := ODouble(AsDoubleOr(Path(current, "uv"), NaN, c))];
    var conditionText := AsTextOr(Path(Path(current, "condition"), "text"), "", c);
    out := out[Condition := OText(conditionText)];

    var rawIcon := AsTextOr(Path(Path(current, "condition"), "icon"), "", c);
    if StartsWith(rawIcon, "//") {
      rawIcon := "https:" + rawIcon;
    }
    out := out[Icon := OText(rawIcon)];

    var forecastList := ForecastLoop(root, c);
    out := out[Forecast := OList(forecastList)];
  }
}
