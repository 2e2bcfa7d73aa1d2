/**
 * The seven-day trends page: a fetch of the daily forecast with loading/error/daily state
 * (try, catch and finally), and the chart inputs derived from the daily list.
 */
module Trends {
  import opened Wrappers
  import opened Seqs
  import opened JsValues
  import opened Text

  /** The props' defaults. */
  const DefaultCity := "New Delhi"
  const DefaultUnit := "C"

  const NotOkMessage := "Forecast fetch failed"
  const FallbackMessage := "Failed to fetch forecast"
  /** V8's message for reading `daily` of a null body. */
  const NullBodyMessage := "Cannot read properties of null (reading 'daily')"

  /** How many days the charts show. */
  const ChartDays := 7

  /** The provider's units string for the page's unit. */
  function UnitsParam(unit: string): (r: string)
    ensures r == "metric" <==> unit == "C"
    ensures r == "imperial" <==> unit != "C"
  {
    if unit == "C" then "metric" else "imperial"
  }

  /** The request URL; `encode` is `encodeURIComponent`. */
  function ForecastUrl(city: string, unit: string, encode: string -> string): (url: string)
    ensures var prefix := "/api/forecast?city=" + encode(city) + "&units=";
            StartsWith(url, prefix) && url[|prefix|..] == UnitsParam(unit)
  {
    "/api/forecast?city=" + encode(city) + "&units=" + UnitsParam(unit)
  }

  /** With the props' defaults the page asks for New Delhi in metric units. */
  lemma DefaultPropsAskMetric(encode: string -> string)
    ensures ForecastUrl(DefaultCity, DefaultUnit, encode) == "/api/forecast?city=" + encode("New Delhi") + "&units=metric"
  {
  }

  datatype TrendsState = TrendsState(loading: bool, error: string, daily: JsValue)

  const InitialState := TrendsState(false, "", Array([]))

  /**
   * How one request ends: `fetch` or `res.json()` rejects with a message, the response is
   * not ok (its body is then never read), or the body parses.
   */
  datatype ForecastOutcome =
    | Rejected(message: string)
    | NotOk
    | Body(json: JsValue)

  /** `e.message || "Failed to fetch forecast"`. */
  function CaughtMessage(message: string): (r: string)
    ensures r != ""
    ensures message != "" ==> r == message
    ensures message == "" ==> r == FallbackMessage
  {
    if message != "" then message else FallbackMessage
  }

  /** The start of `fetchForecast`: loading, and the previous error cleared. */
  function FetchStarted(s: TrendsState): (r: TrendsState)
    ensures r.loading && r.error == "" && r.daily == s.daily
  {
    s.(loading := true, error := "")
  }

  /**
   * The end of `fetchForecast`: a body's `daily` (or [] when it is missing or falsy)
   * becomes the list; every failure sets a non-empty error and keeps the list; the
   * `finally` ends loading.
   */
  function FetchResolved(s: TrendsState, o: ForecastOutcome): (r: TrendsState)
    ensures !r.loading
    ensures o.NotOk? ==> r.error == NotOkMessage && r.daily == s.daily
    ensures o.Rejected? ==> r.error == CaughtMessage(o.message) && r.daily == s.daily
    ensures o.Body? && o.json.Null? ==> r.error == NullBodyMessage && r.daily == s.daily
    ensures o.Body? && !Nullish(o.json) ==> r.error == s.error
    ensures o.Body? && !Nullish(o.json) && !Truthy(Member(o.json, "daily").value) ==> r.daily == Array([])
    ensures o.Body? && !Nullish(o.json) && Truthy(Member(o.json, "daily").value) ==> r.daily == Member(o.json, "daily").value
    ensures r.error != "" <==> (!o.Body? || Nullish(o.json)) || s.error != ""
  {
    match o
    case Rejected(m) => s.(error := CaughtMessage(m), loading := false)
    case NotOk => s.(error := CaughtMessage(NotOkMessage), loading := false)
    case Body(json) =>
      match Member(json, "daily")
      case None => s.(error := CaughtMessage(NullBodyMessage), loading := false)
      case Some(daily) => s.(daily := Or(daily, Array([])), loading := false)
  }

  /** A full fetch, started and then resolved, leaves an error exactly when it failed. */
  lemma FetchErrorIffFailed(s: TrendsState, o: ForecastOutcome)
    ensures var r := FetchResolved(FetchStarted(s), o);
            !r.loading && (r.error != "" <==> !o.Body? || Nullish(o.json))
  {
  }

  /** A date label: from the entry's `dt` timestamp when truthy, else the current date. */
  datatype DateLabel = FromTimestamp(dt: JsValue) | Today

  /** A chart point: null, or the value shown (rounded, for temperatures). */
  datatype Point = NoPoint | Value(v: JsValue)

  /** The chart inputs: the category labels and the two series' data. */
  datatype Charts = Charts(categories: seq<DateLabel>, temperatures: seq<Point>, humidities: seq<Point>)

  /**
   * `(daily || []).slice(0, 7)`: the first seven entries of an array; None where the value
   * is not an array and the later `.slice` or `.map` throws during rendering.
   */
  function Days(daily: JsValue): (r: Option<seq<JsValue>>)
    ensures !Truthy(daily) ==> r == Some([])
    ensures daily.Array? ==> r.Some? && r.value == daily.items[..Min(|daily.items|, ChartDays)]
    ensures Truthy(daily) && !daily.Array? ==> r.None?
    ensures r.Some? ==> |r.value| <= ChartDays
  {
    var v := Or(daily, Array([]));
    if v.Array? then Some(Take(v.items, ChartDays)) else None
  }

  /** One entry's label; None where the entry is null and reading `d.dt` throws. */
  function Category(d: JsValue): (r: Option<DateLabel>)
    ensures r.None? <==> Nullish(d)
    ensures r.Some? ==> (r.value.Today? <==> !Truthy(Member(d, "dt").value))
    ensures r.Some? && Truthy(Member(d, "dt").value) ==> r.value == FromTimestamp(Member(d, "dt").value)
  {
    match Member(d, "dt")
    case None => None
    case Some(dt) => Some(if Truthy(dt) then FromTimestamp(dt) else Today)
  }

  /** `d.temp && (d.temp.day ?? d.temp) ? (d.temp.day ?? d.temp) : null`, then rounded unless null. */
  function TemperaturePoint(d: JsValue): (r: Option<Point>)
    ensures r.None? <==> Nullish(d)
    ensures r.Some? ==> var temp := Member(d, "temp").value;
                        (r.value.Value? <==> Truthy(temp) && Truthy(Coalesce(Member(temp, "day").value, temp)))
    ensures r.Some? && r.value.Value? ==>
              var temp := Member(d, "temp").value;
              Truthy(temp) && r.value.v == Coalesce(Member(temp, "day").value, temp)
  {
    match Member(d, "temp")
    case None => None
    case Some(temp) =>
      if !Truthy(temp) then Some(NoPoint)
      else
        var t := Coalesce(Member(temp, "day").value, temp);
        Some(if Truthy(t) then Value(t) else NoPoint)
  }

  /** `d.humidity != null ? d.humidity : null`. */
  function HumidityPoint(d: JsValue): (r: Option<Point>)
    ensures r.None? <==> Nullish(d)
    ensures r.Some? ==> (r.value.NoPoint? <==> Nullish(Member(d, "humidity").value))
    ensures r.Some? && r.value.Value? ==> r.value.v == Member(d, "humidity").value
  {
    match Member(d, "humidity")
    case None => None
    case Some(h) => Some(if Nullish(h) then NoPoint else Value(h))
  }

  /**
   * The three `days.map(...)` results, one entry per day each; None where a day is null or
   * undefined and reading its members throws.
   */
  function ChartData(days: seq<JsValue>): (r: Option<Charts>)
    ensures r.Some? <==> forall i :: 0 <= i < |days| ==> !Nullish(days[i])
    ensures r.Some? ==> |r.value.categories| == |days| && |r.value.temperatures| == |days|
                        && |r.value.humidities| == |days|
    ensures r.Some? ==> forall i :: 0 <= i < |days| ==>
                          r.value.categories[i] == Category(days[i]).value
                          && r.value.temperatures[i] == TemperaturePoint(days[i]).value
                          && r.value.humidities[i] == HumidityPoint(days[i]).value
    ensures r.Some? ==> forall i :: 0 <= i < |days| ==>
                          (r.value.humidities[i].NoPoint? <==> Nullish(Member(days[i], "humidity").value))
  {
    if forall i :: 0 <= i < |days| ==> !Nullish(days[i]) then
      Some(Charts(
        seq(|days|, i requires 0 <= i < |days| => Category(days[i]).value),
        seq(|days|, i requires 0 <= i < |days| => TemperaturePoint(days[i]).value),
        seq(|days|, i requires 0 <= i < |days| => HumidityPoint(days[i]).value)))
    else None
  }

  /** What the page shows besides its heading. */
  datatype View = View(loadingNote: bool, errorNote: bool, charts: bool, noData: bool)

  /**
   * The notes and charts shown: the loading and error notes follow the state, and once
   * neither applies exactly one of the charts and the no-data note shows.
   */
  function Render(s: TrendsState, days: seq<JsValue>): (v: View)
    ensures v.loadingNote == s.loading && v.errorNote == (s.error != "")
    ensures !(v.charts && v.noData)
    ensures v.charts || v.noData <==> !s.loading && s.error == ""
    ensures v.charts ==> |days| > 0
    ensures v.noData ==> |days| == 0
  {
    View(s.loading, s.error != "",
         !s.loading && s.error == "" && |days| > 0,
         !s.loading && s.error == "" && |days| == 0)
  }

  /** Once loading ends without an error, exactly one of the charts and the no-data note shows. */
  lemma ChartsOrNoData(s: TrendsState, days: seq<JsValue>)
    requires !s.loading && s.error == ""
    ensures Render(s, days).charts <==> |days| > 0
    ensures Render(s, days).noData <==> |days| == 0
    ensures !Render(s, days).loadingNote && !Render(s, days).errorNote
  {
  }

  /** The component's state fields, updated in place by `fetchForecast`. */
  class TrendsPage {
    var loading: bool
    var error: string
    var daily: JsValue

    function State(): TrendsState
      reads this
    {
      TrendsState(loading, error, daily)
    }

    constructor ()
      ensures State() == InitialState
    {
      loading := false;
      error := "";
      daily := Array([]);
    }

    /** `fetchForecast()` up to the awaited request; returns the URL it requests. */
    method StartFetch(city: string, unit: string, encode: string -> string) returns (url: string)
      modifies this
      ensures State() == FetchStarted(old(State()))
      ensures url == ForecastUrl(city, unit, encode)
    {
      loading := true;
      error := "";
      url := "/api/forecast?city=" + encode(city) + "&units=" + (if unit == "C" then "metric" else "imperial");
    }

    /** The rest of `fetchForecast` once the request settles: try, catch, finally. */
    method ResolveFetch(outcome: ForecastOutcome)
      modifies this
      ensures State() == FetchResolved(old(State()), outcome)
    {
      var thrown: Option<string> := None;
      match outcome {
        case Rejected(m) =>
          thrown := Some(m);
        case NotOk =>
          thrown := Some(NotOkMessage);
        case Body(json) =>
          var d := Member(json, "daily");
          if d.None? {
            thrown := Some(NullBodyMessage);
          } else {
            daily := Or(d.value, Array([]));
          }
      }
      if thrown.Some? {
        error := CaughtMessage(thrown.value);
      }
      loading := false;
    }
  }
}
