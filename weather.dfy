/**
 * The "worldwide-weather" tool server: `get_alerts` and `get_forecast` over
 * the National Weather Service API, `get_current_weather` and
 * `get_weather_forecast` over the OpenWeatherMap API.
 *
 * Each handler is a function of its validated arguments and of the upstream
 * service, given as a function from the request it issues to the parsed
 * payload or `None` (a transport failure, a non-2xx status or a body that is
 * not JSON). A handler answers with its text envelope and the requests it
 * issued, in order. Number and date rendering is passed in as a `Rendering`.
 */
module Weather {
  import opened Wrappers
  import opened Js
  import opened ToolResult

  const NWS_API_BASE := "https://api.weather.gov"
  const OPENWEATHER_API_BASE := "https://api.openweathermap.org/data/2.5"
  const USER_AGENT := "weather-app/1.0"

  const ALERTS_FAILED := "Failed to retrieve alerts data"
  const NO_FORECAST_URL := "Failed to get forecast URL from grid point data"
  const FORECAST_FAILED := "Failed to retrieve forecast data"
  const NO_PERIODS := "No forecast periods available"
  const API_KEY_MISSING := "OpenWeatherMap API key not found. Please set OPENWEATHER_API_KEY environment variable."
  const CHECK_CITY := ". Please check the city name."

  /** A header or query parameter, in the order it is written. */
  type Param = (string, string)

  const NWS_HEADERS: seq<Param> := [("User-Agent", USER_AGENT), ("Accept", "application/geo+json")]

  /**
   * An outbound GET. For OpenWeatherMap the URL is `url` followed by "?" and
   * the URL-encoded `params`.
   */
  datatype Request =
    | NwsGet(url: string, headers: seq<Param>)
    | OpenWeatherGet(url: string, params: seq<Param>)

  /** What a handler returns, and the requests it issued to get there. */
  datatype Reply = Reply(envelope: Envelope, requests: seq<Request>)

  /**
   * How numbers and dates become text: `show` is template-literal
   * interpolation of a number, `toFixed(n, d)` is `n.toFixed(d)`,
   * `localeDate(ms)` is `new Date(ms).toLocaleDateString()`.
   */
  datatype Rendering = Rendering(
    show: real -> string,
    toFixed: (real, nat) -> string,
    localeDate: real -> string)

  /** No rendered number or date spans more than one line. */
  ghost predicate SingleLine(rendering: Rendering) {
    && (forall x :: NoNewline(rendering.show(x)))
    && (forall x, d :: NoNewline(rendering.toFixed(x, d)))
    && (forall ms :: NoNewline(rendering.localeDate(ms)))
  }

  function NwsRequest(url: string): Request {
    NwsGet(url, NWS_HEADERS)
  }

  function OpenWeatherRequest(endpoint: string, params: seq<Param>): Request {
    OpenWeatherGet(OPENWEATHER_API_BASE + "/" + endpoint, params)
  }

  // ---------------------------------------------------------------------
  // National Weather Service payloads

  datatype AlertProperties = AlertProperties(
    event: Option<string>,
    areaDesc: Option<string>,
    severity: Option<string>,
    status: Option<string>,
    headline: Option<string>)

  datatype AlertFeature = AlertFeature(properties: AlertProperties)

  datatype AlertsResponse = AlertsResponse(features: Option<seq<AlertFeature>>)

  datatype ForecastPeriod = ForecastPeriod(
    name: Option<string>,
    temperature: Option<real>,
    temperatureUnit: Option<string>,
    windSpeed: Option<string>,
    windDirection: Option<string>,
    shortForecast: Option<string>)

  datatype PointsProperties = PointsProperties(forecast: Option<string>)

  datatype PointsResponse = PointsResponse(properties: Option<PointsProperties>)

  datatype ForecastProperties = ForecastProperties(periods: Option<seq<ForecastPeriod>>)

  datatype ForecastResponse = ForecastResponse(properties: Option<ForecastProperties>)

  // ---------------------------------------------------------------------
  // OpenWeatherMap payloads

  datatype Condition = Condition(main: string, description: string)

  datatype Wind = Wind(speed: real, deg: Option<real>)

  datatype Sys = Sys(country: string)

  datatype CurrentMain = CurrentMain(temp: real, feelsLike: real, humidity: real, pressure: real)

  datatype CurrentResponse = CurrentResponse(
    name: string,
    sys: Sys,
    main: CurrentMain,
    weather: seq<Condition>,
    wind: Wind,
    visibility: Option<real>)

  datatype EntryMain = EntryMain(temp: real, feelsLike: real, humidity: real)

  datatype ForecastEntry = ForecastEntry(
    dt: real,
    main: EntryMain,
    weather: seq<Condition>,
    wind: Wind,
    dtTxt: string)

  datatype City = City(name: string, country: string)

  datatype CityForecast = CityForecast(city: City, list: seq<ForecastEntry>)

  // ---------------------------------------------------------------------
  // Formatters

  /** The lines of one alert, with "Unknown" / "No headline" for falsy fields. */
  function AlertLines(feature: AlertFeature): seq<string> {
    var p := feature.properties;
    [ "Event: " + OrElse(p.event, "Unknown"),
      "Area: " + OrElse(p.areaDesc, "Unknown"),
      "Severity: " + OrElse(p.severity, "Unknown"),
      "Status: " + OrElse(p.status, "Unknown"),
      "Headline: " + OrElse(p.headline, "No headline"),
      "---" ]
  }

  /** `formatAlert`: the alert's lines joined by "\n", so the text splits back into them. */
  function FormatAlert(feature: AlertFeature): (r: string)
    ensures AllNoNewline(AlertLines(feature)) ==> Lines(r) == AlertLines(feature)
  {
    var lines := AlertLines(feature);
    LinesJoin(lines);
    Join(lines, "\n")
  }

  /** The lines of one forecast period; a temperature of 0 counts as missing. */
  function PeriodLines(show: real -> string, period: ForecastPeriod): (r: seq<string>)
    ensures |r| == 5 && r[4] == "---"
    ensures forall i :: 0 <= i < |r| ==> r[i] != ""
  {
    var temperature := if TruthyNumber(period.temperature) then show(period.temperature.value) else "Unknown";
    [ OrElse(period.name, "Unknown") + ":",
      "Temperature: " + temperature + "°" + OrElse(period.temperatureUnit, "F"),
      "Wind: " + OrElse(period.windSpeed, "Unknown") + " " + OrElse(period.windDirection, ""),
      OrElse(period.shortForecast, "No forecast available"),
      "---" ]
  }

  /** The period formatter of `get_forecast`: its text splits back into the period's lines. */
  function FormatPeriod(show: real -> string, period: ForecastPeriod): (r: string)
    ensures AllNoNewline(PeriodLines(show, period)) ==> Lines(r) == PeriodLines(show, period)
  {
    var lines := PeriodLines(show, period);
    LinesJoin(lines);
    Join(lines, "\n")
  }

  /** The callback `get_forecast` maps over its periods. */
  function PeriodFormatter(show: real -> string): ForecastPeriod -> string {
    period => FormatPeriod(show, period)
  }

  /** `weather[0]?.description || "Unknown"`. */
  function Description(weather: seq<Condition>): string {
    OrElse(if |weather| > 0 then Some(weather[0].description) else None, "Unknown")
  }

  /** A truthy wind direction in degrees, or "Unknown". */
  function WindDirection(show: real -> string, deg: Option<real>): string {
    if TruthyNumber(deg) then show(deg.value) + "°" else "Unknown"
  }

  /** The candidate lines of `get_current_weather`; the last is "" without a truthy visibility. */
  function CurrentLines(rendering: Rendering, data: CurrentResponse): (r: seq<string>)
    ensures |r| == 7
    ensures forall i :: 0 <= i < 6 ==> r[i] != ""
    ensures r[6] != "" <==> TruthyNumber(data.visibility)
  {
    var show := rendering.show;
    [ "Current weather for " + data.name + ", " + data.sys.country + ":",
      "Temperature: " + show(data.main.temp) + "°C (feels like " + show(data.main.feelsLike) + "°C)",
      "Weather: " + Description(data.weather),
      "Humidity: " + show(data.main.humidity) + "%",
      "Pressure: " + show(data.main.pressure) + " hPa",
      "Wind: " + show(data.wind.speed) + " m/s " + WindDirection(show, data.wind.deg),
      if TruthyNumber(data.visibility)
      then "Visibility: " + rendering.toFixed(data.visibility.value / 1000.0, 1) + " km"
      else "" ]
  }

  /** The lines of one day of `get_weather_forecast`; `dt` is in seconds. */
  function DayLines(rendering: Rendering, entry: ForecastEntry): (r: seq<string>)
    ensures |r| == 6 && r[5] == "---"
    ensures forall i :: 0 <= i < |r| ==> r[i] != ""
  {
    var show := rendering.show;
    [ rendering.localeDate(entry.dt * 1000.0) + ":",
      "Temperature: " + show(entry.main.temp) + "°C (feels like " + show(entry.main.feelsLike) + "°C)",
      "Weather: " + Description(entry.weather),
      "Humidity: " + show(entry.main.humidity) + "%",
      "Wind: " + show(entry.wind.speed) + " m/s " + WindDirection(show, entry.wind.deg),
      "---" ]
  }

  /** One day of `get_weather_forecast`: its text splits back into the day's lines. */
  function FormatDay(rendering: Rendering, entry: ForecastEntry): (r: string)
    ensures AllNoNewline(DayLines(rendering, entry)) ==> Lines(r) == DayLines(rendering, entry)
  {
    var lines := DayLines(rendering, entry);
    LinesJoin(lines);
    Join(lines, "\n")
  }

  /** The callback `get_weather_forecast` maps over the selected days. */
  function DayFormatter(rendering: Rendering): ForecastEntry -> string {
    entry => FormatDay(rendering, entry)
  }

  // ---------------------------------------------------------------------
  // Daily selection

  /**
   * `list.filter((_, index) => index % 8 === 0)`: the entries at indices
   * 0, 8, 16, ... in order, one per 24 hours of 3-hour entries.
   */
  function EveryEighth<T>(xs: seq<T>): (r: seq<T>)
    ensures |r| == (|xs| + 7) / 8
    ensures forall k :: 0 <= k < |r| ==> r[k] == xs[8 * k]
    decreases |xs|
  {
    if |xs| == 0 then []
    else
      var last := |xs| - 1;
      var before := EveryEighth(xs[..last]);
      assert last % 8 == 0 ==> (last + 7) / 8 == last / 8 && (last + 8) / 8 == last / 8 + 1;
      assert last % 8 != 0 ==> (last + 7) / 8 == (last + 8) / 8;
      before + (if last % 8 == 0 then [xs[last]] else [])
  }

  /** `.filter(...).slice(0, days)`: the first `days` entries of `EveryEighth`. */
  function DailySelection<T>(xs: seq<T>, days: nat): (r: seq<T>)
    ensures |r| == if days <= (|xs| + 7) / 8 then days else (|xs| + 7) / 8
    ensures forall k :: 0 <= k < |r| ==> 8 * k < |xs| && r[k] == xs[8 * k]
  {
    Take(EveryEighth(xs), days)
  }

  // ---------------------------------------------------------------------
  // get_alerts

  function AlertsUrl(state: string): string {
    NWS_API_BASE + "/alerts?area=" + ToUpperCase(state)
  }

  function AlertsHeader(stateCode: string): string {
    "Active alerts for " + stateCode + ":"
  }

  /** `alertsData.features || []`: the features when present, none otherwise. */
  function Features(data: AlertsResponse): (r: seq<AlertFeature>)
    ensures r == [] <==> data.features.None? || data.features.value == []
    ensures r != [] ==> data.features == Some(r)
  {
    if data.features.Some? then data.features.value else []
  }

  /** Tool `get_alerts`; `state` has passed the two-character schema check. */
  function GetAlerts(state: string, nws: Request -> Option<AlertsResponse>): (r: Reply)
    requires |state| == 2
    ensures r.requests == [NwsGet(NWS_API_BASE + "/alerts?area=" + ToUpperCase(state), NWS_HEADERS)]
    ensures r.envelope.IsText()
    ensures var answer := nws(r.requests[0]);
      && (answer.None? ==> r.envelope.Text() == ALERTS_FAILED)
      && (answer.Some? && Features(answer.value) == [] ==>
            r.envelope.Text() == "No active alerts for " + ToUpperCase(state))
      && (answer.Some? && Features(answer.value) != [] ==>
            r.envelope.Text() == "Active alerts for " + ToUpperCase(state) + ":" + "\n\n"
                                 + Join(Map(FormatAlert, Features(answer.value)), "\n"))
  {
    var stateCode := ToUpperCase(state);
    var request := NwsRequest(AlertsUrl(state));
    match nws(request)
    case None => Reply(TextEnvelope(ALERTS_FAILED), [request])
    case Some(alertsData) =>
      var features := Features(alertsData);
      if |features| == 0 then
        Reply(TextEnvelope("No active alerts for " + stateCode), [request])
      else
        var alertsText := AlertsHeader(stateCode) + "\n\n" + Join(Map(FormatAlert, features), "\n");
        Reply(TextEnvelope(alertsText), [request])
  }

  // ---------------------------------------------------------------------
  // get_forecast

  function PointsUrl(rendering: Rendering, latitude: real, longitude: real): string {
    NWS_API_BASE + "/points/" + rendering.toFixed(latitude, 4) + "," + rendering.toFixed(longitude, 4)
  }

  function GridPointFailure(show: real -> string, latitude: real, longitude: real): string {
    "Failed to retrieve grid point data for coordinates: " + show(latitude) + ", " + show(longitude)
    + ". This location may not be supported by the NWS API (only US locations are supported)."
  }

  /** The grid point's forecast URL when it is present and non-empty. */
  function ForecastUrl(points: PointsResponse): (url: Option<string>)
    ensures url.Some? <==> points.properties.Some? && TruthyString(points.properties.value.forecast)
    ensures url.Some? ==> url.value != "" && Some(url.value) == points.properties.value.forecast
  {
    if points.properties.Some? && TruthyString(points.properties.value.forecast)
    then points.properties.value.forecast
    else None
  }

  /** `forecastData.properties?.periods || []`: the periods when present, none otherwise. */
  function Periods(data: ForecastResponse): (r: seq<ForecastPeriod>)
    ensures r == [] <==> data.properties.None? || data.properties.value.periods.None?
                         || data.properties.value.periods.value == []
    ensures r != [] ==> data.properties.Some? && data.properties.value.periods == Some(r)
  {
    if data.properties.Some? && data.properties.value.periods.Some?
    then data.properties.value.periods.value
    else []
  }

  function ForecastHeader(show: real -> string, latitude: real, longitude: real): string {
    "Forecast for " + show(latitude) + ", " + show(longitude) + ":"
  }

  /**
   * Tool `get_forecast`: grid point lookup, then the forecast at the URL it
   * names. Its failures are checked in order: no grid point data, no forecast
   * URL (no second request), no forecast data, no periods.
   */
  function GetForecast(
    latitude: real, longitude: real, rendering: Rendering,
    points: Request -> Option<PointsResponse>, forecasts: Request -> Option<ForecastResponse>): (r: Reply)
    requires -90.0 <= latitude <= 90.0 && -180.0 <= longitude <= 180.0
    ensures r.envelope.IsText()
    ensures 1 <= |r.requests| <= 2
    ensures r.requests[0] == NwsGet(NWS_API_BASE + "/points/" + rendering.toFixed(latitude, 4) + ","
                                    + rendering.toFixed(longitude, 4), NWS_HEADERS)
    ensures var grid := points(r.requests[0]);
      && (grid.None? ==> r.envelope.Text() == GridPointFailure(rendering.show, latitude, longitude))
      && (grid.Some? && ForecastUrl(grid.value).None? ==> r.envelope.Text() == NO_FORECAST_URL)
      && (|r.requests| == 2 <==> grid.Some? && ForecastUrl(grid.value).Some?)
    ensures |r.requests| == 2 ==>
      var url := ForecastUrl(points(r.requests[0]).value).value;
      var answer := forecasts(r.requests[1]);
      && r.requests[1] == NwsGet(url, NWS_HEADERS)
      && (answer.None? ==> r.envelope.Text() == FORECAST_FAILED)
      && (answer.Some? && Periods(answer.value) == [] ==> r.envelope.Text() == NO_PERIODS)
      && (answer.Some? && Periods(answer.value) != [] ==>
            r.envelope.Text() == ForecastHeader(rendering.show, latitude, longitude) + "\n\n"
              + Join(Map(PeriodFormatter(rendering.show), Periods(answer.value)), "\n"))
  {
    var first := NwsRequest(PointsUrl(rendering, latitude, longitude));
    match points(first)
    case None => Reply(TextEnvelope(GridPointFailure(rendering.show, latitude, longitude)), [first])
    case Some(pointsData) =>
      match ForecastUrl(pointsData)
      case None => Reply(TextEnvelope(NO_FORECAST_URL), [first])
      case Some(forecastUrl) =>
        var second := NwsRequest(forecastUrl);
        match forecasts(second)
        case None => Reply(TextEnvelope(FORECAST_FAILED), [first, second])
        case Some(forecastData) =>
          var periods := Periods(forecastData);
          if |periods| == 0 then
            Reply(TextEnvelope(NO_PERIODS), [first, second])
          else
            var formatted := Map(PeriodFormatter(rendering.show), periods);
            var forecastText := ForecastHeader(rendering.show, latitude, longitude) + "\n\n" + Join(formatted, "\n");
            Reply(TextEnvelope(forecastText), [first, second])
  }

  // ---------------------------------------------------------------------
  // get_current_weather and get_weather_forecast

  /** The `q` parameter: "city,country" with a truthy country, the city otherwise. */
  function Query(city: string, country: Option<string>): (r: string)
    ensures |city| <= |r| && r[..|city|] == city
    ensures r == city <==> !TruthyString(country)
  {
    if TruthyString(country) then city + "," + country.value else city
  }

  /** The place named in a failure text: "city, country" or the city. */
  function Place(city: string, country: Option<string>): (r: string)
    ensures |city| <= |r| && r[..|city|] == city
    ensures r == city <==> !TruthyString(country)
  {
    city + (if TruthyString(country) then ", " + country.value else "")
  }

  function QueryParams(city: string, country: Option<string>, apiKey: string): seq<Param> {
    [("q", Query(city, country)), ("appid", apiKey), ("units", "metric")]
  }

  /**
   * Tool `get_current_weather`; `apiKey` is the OPENWEATHER_API_KEY
   * environment variable, read once at start-up.
   */
  function GetCurrentWeather(
    city: string, country: Option<string>, apiKey: Option<string>, rendering: Rendering,
    openWeather: Request -> Option<CurrentResponse>): (r: Reply)
    ensures r.envelope.IsText()
    ensures !TruthyString(apiKey) ==> r.envelope.Text() == API_KEY_MISSING && r.requests == []
    ensures TruthyString(apiKey) ==>
      var q := if TruthyString(country) then city + "," + country.value else city;
      && r.requests == [OpenWeatherGet(OPENWEATHER_API_BASE + "/" + "weather",
                                       [("q", q), ("appid", apiKey.value), ("units", "metric")])]
      && (openWeather(r.requests[0]).None? ==>
            r.envelope.Text() == "Failed to retrieve weather data for " + city
              + (if TruthyString(country) then ", " + country.value else "") + CHECK_CITY)
      && (openWeather(r.requests[0]).Some? ==>
            r.envelope.Text() == Join(Compact(CurrentLines(rendering, openWeather(r.requests[0]).value)), "\n"))
  {
    if !TruthyString(apiKey) then
      Reply(TextEnvelope(API_KEY_MISSING), [])
    else
      var request := OpenWeatherRequest("weather", QueryParams(city, country, apiKey.value));
      match openWeather(request)
      case None =>
        Reply(TextEnvelope("Failed to retrieve weather data for " + Place(city, country) + CHECK_CITY), [request])
      case Some(weatherData) =>
        Reply(TextEnvelope(Join(Compact(CurrentLines(rendering, weatherData)), "\n")), [request])
  }

  /** The schema default of `days`: 3 when absent, the given value otherwise. */
  function DaysOrDefault(days: Option<real>): (r: real)
    ensures days.Some? ==> r == days.value
    ensures days.None? ==> r == 3.0
    ensures (days.None? || 1.0 <= days.value <= 5.0) ==> 1.0 <= r <= 5.0
  {
    if days.Some? then days.value else 3.0
  }

  function DailyHeader(rendering: Rendering, days: real, data: CityForecast): string {
    rendering.show(days) + "-day forecast for " + data.city.name + ", " + data.city.country + ":"
  }

  /**
   * Tool `get_weather_forecast`. The schema bounds `days` to [1, 5] without
   * requiring an integer; `slice` truncates it, the header shows it as given.
   */
  function GetWeatherForecast(
    city: string, country: Option<string>, days: Option<real>, apiKey: Option<string>,
    rendering: Rendering, openWeather: Request -> Option<CityForecast>): (r: Reply)
    requires days.None? || 1.0 <= days.value <= 5.0
    ensures r.envelope.IsText()
    ensures !TruthyString(apiKey) ==> r.envelope.Text() == API_KEY_MISSING && r.requests == []
    ensures TruthyString(apiKey) ==>
      var q := if TruthyString(country) then city + "," + country.value else city;
      && r.requests == [OpenWeatherGet(OPENWEATHER_API_BASE + "/" + "forecast",
                                       [("q", q), ("appid", apiKey.value), ("units", "metric")])]
      && (openWeather(r.requests[0]).None? ==>
            r.envelope.Text() == "Failed to retrieve forecast data for " + city
              + (if TruthyString(country) then ", " + country.value else "") + CHECK_CITY)
    ensures TruthyString(apiKey) && openWeather(r.requests[0]).Some? ==>
      var data := openWeather(r.requests[0]).value;
      var n := DaysOrDefault(days);
      var header := rendering.show(n) + "-day forecast for " + data.city.name + ", " + data.city.country + ":";
      r.envelope.Text() == header + "\n\n"
        + Join(Map(DayFormatter(rendering), DailySelection(data.list, n.Floor)), "\n")
  {
    var n := DaysOrDefault(days);
    if !TruthyString(apiKey) then
      Reply(TextEnvelope(API_KEY_MISSING), [])
    else
      var request := OpenWeatherRequest("forecast", QueryParams(city, country, apiKey.value));
      match openWeather(request)
      case None =>
        Reply(TextEnvelope("Failed to retrieve forecast data for " + Place(city, country) + CHECK_CITY), [request])
      case Some(forecastData) =>
        var dailyForecasts := DailySelection(forecastData.list, n.Floor);
        var formatted := Map(DayFormatter(rendering), dailyForecasts);
        var forecastText := DailyHeader(rendering, n, forecastData) + "\n\n" + Join(formatted, "\n");
        Reply(TextEnvelope(forecastText), [request])
  }
}
