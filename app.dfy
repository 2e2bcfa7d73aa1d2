/**
 * The top-level page: the weather it shows, the search box, the loading flag and the
 * background category, with the two fetches (by city, by coordinates), the initial
 * location chosen at mount, the search submit and the condition classifier.
 */
module App {
  import opened Wrappers
  import opened Text
  import opened JsValues

  /** The city fetched when the browser gives no position. */
  const DefaultCity := "Delhi"

  /** The background gradient for each category. */
  const BgStyles: map<string, string> := map[
    "sunny" := "bg-gradient-to-r from-yellow-400 via-orange-300 to-pink-400",
    "cloudy" := "bg-gradient-to-r from-gray-400 via-gray-500 to-gray-700",
    "rainy" := "bg-gradient-to-r from-blue-500 via-blue-700 to-gray-900",
    "night" := "bg-gradient-to-r from-gray-900 via-indigo-900 to-black"]

  /** The lower-cased condition text contains `word` somewhere. */
  ghost predicate Mentions(condition: string, word: string) {
    exists i :: OccursAt(ToLower(condition), word, i)
  }

  ghost predicate MentionsRain(condition: string) {
    Mentions(condition, "rain") || Mentions(condition, "shower") || Mentions(condition, "thunder")
  }

  /**
   * The category of a condition text, by case-insensitive search in a fixed order: a
   * rain-family word wins over "cloud", which wins over "night"; anything else is sunny.
   * The result is always a key of BgStyles.
   */
  function Classify(condition: string): (r: string)
    ensures r in BgStyles
    ensures r == "rainy" <==> MentionsRain(condition)
    ensures r == "cloudy" <==> !MentionsRain(condition) && Mentions(condition, "cloud")
    ensures r == "night" <==> !MentionsRain(condition) && !Mentions(condition, "cloud") && Mentions(condition, "night")
    ensures r == "sunny" <==> !MentionsRain(condition) && !Mentions(condition, "cloud") && !Mentions(condition, "night")
  {
    var cond := ToLower(condition);
    IncludesIff(cond, "rain");
    IncludesIff(cond, "shower");
    IncludesIff(cond, "thunder");
    IncludesIff(cond, "cloud");
    IncludesIff(cond, "night");
    if Includes(cond, "rain") || Includes(cond, "shower") || Includes(cond, "thunder") then "rainy"
    else if Includes(cond, "cloud") then "cloudy"
    else if Includes(cond, "night") then "night"
    else "sunny"
  }

  lemma ToLowerIdempotent(s: string)
    ensures ToLower(ToLower(s)) == ToLower(s)
  {
    assert forall i :: 0 <= i < |s| ==> LowerChar(LowerChar(s[i])) == LowerChar(s[i]);
  }

  /** Classification does not depend on case. */
  lemma ClassifyIgnoresCase(condition: string)
    ensures Classify(ToLower(condition)) == Classify(condition)
  {
    ToLowerIdempotent(condition);
  }

  /** The empty condition is sunny. */
  lemma EmptyConditionIsSunny()
    ensures Classify("") == "sunny"
  {
    assert !Includes("", "rain") && !Includes("", "shower") && !Includes("", "thunder");
  }

  /**
   * `(data?.condition || "").toLowerCase()` as far as the text goes: a missing or falsy
   * condition reads as "", a string as itself, and None where any other truthy value has
   * no `toLowerCase` and the call throws a TypeError.
   */
  function ConditionText(data: JsValue): (r: Option<string>)
    ensures !Truthy(OptionalMember(data, "condition")) ==> r == Some("")
    ensures OptionalMember(data, "condition").Str? ==> r == Some(OptionalMember(data, "condition").s)
  {
    var v := Or(OptionalMember(data, "condition"), Str(""));
    if v.Str? then Some(v.s) else None
  }

  /** `updateBackground(data)`: the category it sets, or None where it throws. */
  function Background(data: JsValue): (r: Option<string>)
    ensures r.Some? ==> r.value in BgStyles
    ensures r.None? <==> Truthy(OptionalMember(data, "condition")) && !OptionalMember(data, "condition").Str?
    ensures OptionalMember(data, "condition").Str? ==> r == Some(Classify(OptionalMember(data, "condition").s))
    ensures !Truthy(OptionalMember(data, "condition")) ==> r == Some("sunny")
  {
    match ConditionText(data)
    case None => None
    case Some(text) => Some(Classify(text))
  }

  /** Data that is null, has no condition or has an empty one gives a sunny background. */
  lemma NoConditionIsSunny(data: JsValue)
    requires !Truthy(OptionalMember(data, "condition"))
    ensures Background(data) == Some("sunny")
  {
    EmptyConditionIsSunny();
  }

  /**
   * The gradient class the page renders for a category: `bgStyles[bgCond] || bgStyles["sunny"]`,
   * for a category that names no built-in property (such as "constructor"), which the page never holds.
   */
  function BackgroundClass(bgCond: string): (r: string)
    ensures r in BgStyles.Values
    ensures bgCond in BgStyles ==> r == BgStyles[bgCond]
    ensures bgCond !in BgStyles ==> r == BgStyles["sunny"]
  {
    if bgCond in BgStyles then BgStyles[bgCond] else BgStyles["sunny"]
  }

  /** The page's state. */
  datatype AppState = AppState(weatherData: JsValue, search: string, loading: bool, bgCond: string)

  const InitialState := AppState(Null, "", false, "sunny")

  /** The background category is a key of BgStyles, so BackgroundClass never falls back. */
  predicate Valid(s: AppState) {
    s.bgCond in BgStyles
  }

  /** How one fetch ends: the request or `res.json()` rejects, or the body parses. */
  datatype FetchOutcome = Rejected | Received(data: JsValue)

  /**
   * What `navigator.geolocation` offers at mount: no support, a position, a refusal or an
   * error, or a prompt that is never answered (no timeout is set, so neither callback runs).
   */
  datatype Geolocation = Unsupported | Granted(latitude: real, longitude: real) | Denied | NoAnswer

  /** Where the first fetch goes. */
  datatype Target = ByCity(name: string) | ByCoords(lat: real, lon: real)

  /**
   * Coordinates when the browser gives a position; the default city when it refuses or
   * cannot; no fetch at all while the prompt stays unanswered.
   */
  function InitialTarget(geo: Geolocation): (t: Option<Target>)
    ensures t.None? <==> geo.NoAnswer?
    ensures geo.Granted? ==> t == Some(ByCoords(geo.latitude, geo.longitude))
    ensures geo.Denied? || geo.Unsupported? ==> t == Some(ByCity(DefaultCity))
  {
    match geo
    case Granted(lat, lon) => Some(ByCoords(lat, lon))
    case NoAnswer => None
    case _ => Some(ByCity(DefaultCity))
  }

  /**
   * The request URL for a target; `encode` is `encodeURIComponent` and `numberText` is
   * JavaScript's conversion of a number to text inside a template literal.
   */
  function RequestUrl(t: Target, encode: string -> string, numberText: real -> string): (r: string)
    ensures StartsWith(r, "/api/weather?")
    ensures t.ByCity? ==> StartsWith(r, "/api/weather?city=") && r[18..] == encode(t.name)
    ensures t.ByCoords? ==> var prefix := "/api/weather?lat=" + numberText(t.lat) + "&lon=";
                            StartsWith(r, prefix) && r[|prefix|..] == numberText(t.lon)
  {
    match t
    case ByCity(name) => "/api/weather?city=" + encode(name)
    case ByCoords(lat, lon) => "/api/weather?lat=" + numberText(lat) + "&lon=" + numberText(lon)
  }

  /** The first phase of either fetch: `setLoading(true)` before the request is awaited. */
  function FetchStarted(s: AppState): (r: AppState)
    ensures r.loading
    ensures r.weatherData == s.weatherData && r.search == s.search && r.bgCond == s.bgCond
  {
    s.(loading := true)
  }

  /**
   * The second phase: on a parsed body the data replaces `weatherData` whatever it holds
   * (there is no status check) and then the background is recomputed from it, unless that
   * throws; on a rejection only `loading` changes. Either way loading ends.
   */
  function FetchResolved(s: AppState, o: FetchOutcome): (r: AppState)
    ensures !r.loading && r.search == s.search
    ensures o.Rejected? ==> r.weatherData == s.weatherData && r.bgCond == s.bgCond
    ensures o.Received? ==> r.weatherData == o.data
    ensures o.Received? && Background(o.data).Some? ==> r.bgCond == Background(o.data).value
    ensures o.Received? && Background(o.data).None? ==> r.bgCond == s.bgCond
    ensures Valid(s) ==> Valid(r)
  {
    match o
    case Rejected => s.(loading := false)
    case Received(data) =>
      var bg := Background(data);
      s.(weatherData := data, loading := false, bgCond := if bg.Some? then bg.value else s.bgCond)
  }

  /**
   * `handleSearchSubmit`: blank text starts nothing and leaves everything as it was;
   * otherwise the fetch for the trimmed text starts and the box is emptied.
   */
  function SearchSubmitted(s: AppState): (r: (AppState, Option<Target>))
    ensures Trim(s.search) == "" ==> r == (s, None)
    ensures Trim(s.search) != "" ==> r.1 == Some(ByCity(Trim(s.search)))
                                     && r.0 == FetchStarted(s).(search := "")
  {
    var text := Trim(s.search);
    if text != "" then (FetchStarted(s).(search := ""), Some(ByCity(text))) else (s, None)
  }

  /** Something that happens to the page: typing, a submit, a fetch starting, a fetch settling. */
  datatype Event = Typed(text: string) | Submitted | Started | Settled(outcome: FetchOutcome)

  function Step(s: AppState, e: Event): AppState {
    match e
    case Typed(text) => s.(search := text)
    case Submitted => SearchSubmitted(s).0
    case Started => FetchStarted(s)
    case Settled(o) => FetchResolved(s, o)
  }

  /** The state after a run of events, in any order (overlapping fetches included). */
  function Replay(s: AppState, events: seq<Event>): AppState
    decreases |events|
  {
    if events == [] then s else Replay(Step(s, events[0]), events[1..])
  }

  lemma {:induction false} ReplayKeepsValid(s: AppState, events: seq<Event>)
    requires Valid(s)
    ensures Valid(Replay(s, events))
    decreases |events|
  {
    if events != [] {
      ReplayKeepsValid(Step(s, events[0]), events[1..]);
    }
  }

  /** Every state the page reaches has a background BgStyles styles, so the fallback is never used. */
  lemma ReachableStatesStyled(events: seq<Event>)
    ensures Valid(Replay(InitialState, events))
    ensures BackgroundClass(Replay(InitialState, events).bgCond) == BgStyles[Replay(InitialState, events).bgCond]
  {
    ReplayKeepsValid(InitialState, events);
  }

  /** The component's state fields, updated in place by its handlers. */
  class WeatherApp {
    var weatherData: JsValue
    var search: string
    var loading: bool
    var bgCond: string

    function State(): AppState
      reads this
    {
      AppState(weatherData, search, loading, bgCond)
    }

    constructor ()
      ensures State() == InitialState
    {
      weatherData := Null;
      search := "";
      loading := false;
      bgCond := "sunny";
    }

    /** The search box's `onChange`: only the text changes; typing fetches nothing. */
    method SetSearch(text: string)
      modifies this
      ensures State() == old(State()).(search := text)
    {
      search := text;
    }

    /** `fetchByCity(cityName)` up to the awaited request; returns the URL it requests. */
    method FetchByCity(cityName: string, encode: string -> string) returns (url: string)
      modifies this
      ensures State() == FetchStarted(old(State()))
      ensures url == "/api/weather?city=" + encode(cityName)
    {
      loading := true;
      url := "/api/weather?city=" + encode(cityName);
    }

    /** `fetchByCoords(lat, lon)` up to the awaited request; returns the URL it requests. */
    method FetchByCoords(lat: real, lon: real, numberText: real -> string) returns (url: string)
      modifies this
      ensures State() == FetchStarted(old(State()))
      ensures url == "/api/weather?lat=" + numberText(lat) + "&lon=" + numberText(lon)
    {
      loading := true;
      url := "/api/weather?lat=" + numberText(lat) + "&lon=" + numberText(lon);
    }

    /** `updateBackground(data)`; `threw` where `toLowerCase` is missing and nothing changes. */
    method UpdateBackground(data: JsValue) returns (threw: bool)
      modifies this
      ensures threw <==> Background(data).None?
      ensures State() == if threw then old(State()) else old(State()).(bgCond := Background(data).value)
    {
      var cond := ConditionText(data);
      if cond.None? {
        return true;
      }
      bgCond := Classify(cond.value);
      return false;
    }

    /** The rest of either fetch once the request settles, the `catch` included. */
    method ResolveFetch(outcome: FetchOutcome)
      modifies this
      ensures State() == FetchResolved(old(State()), outcome)
    {
      match outcome {
        case Rejected =>
          loading := false;
        case Received(data) =>
          weatherData := data;
          loading := false;
          var threw := UpdateBackground(data);
          if threw {
            loading := false;
          }
      }
    }

    /**
     * The mount effect: fetch by coordinates when a position is granted, else the default
     * city; nothing while the prompt is unanswered. Returns the URL requested, if any.
     */
    method Mount(geo: Geolocation, encode: string -> string, numberText: real -> string) returns (url: Option<string>)
      modifies this
      ensures InitialTarget(geo).None? ==> State() == old(State()) && url == None
      ensures InitialTarget(geo).Some? ==> State() == FetchStarted(old(State()))
                                           && url == Some(RequestUrl(InitialTarget(geo).value, encode, numberText))
    {
      var u: string;
      match geo {
        case NoAnswer =>
          return None;
        case Granted(lat, lon) =>
          u := FetchByCoords(lat, lon, numberText);
        case Denied =>
          u := FetchByCity(DefaultCity, encode);
        case Unsupported =>
          u := FetchByCity(DefaultCity, encode);
      }
      url := Some(u);
    }

    /** `handleSearchSubmit`; returns the URL requested, or None when the text is blank. */
    method HandleSearchSubmit(encode: string -> string) returns (url: Option<string>)
      modifies this
      ensures State() == SearchSubmitted(old(State())).0
      ensures Trim(old(search)) == "" ==> url == None
      ensures Trim(old(search)) != "" ==> url == Some("/api/weather?city=" + encode(Trim(old(search))))
    {
      if Trim(search) != "" {
        var u := FetchByCity(Trim(search), encode);
        search := "";
        url := Some(u);
      } else {
        url := None;
      }
    }
  }
}
