/**
 * What the weather tools promise about their output: the exact lines of each
 * report, the fallbacks, the order of the failure checks, which requests are
 * issued, and which days the multi-day forecast picks.
 *
 * Line-structure statements assume the payload's text fields, and the
 * rendered numbers and dates, hold no line break; otherwise a field would
 * itself add lines.
 */
module WeatherProperties {
  import opened Wrappers
  import opened Js
  import opened ToolResult
  import opened Weather

  predicate OptNoNewline(v: Option<string>) {
    v.None? || NoNewline(v.value)
  }

  predicate AlertSingleLine(feature: AlertFeature) {
    var p := feature.properties;
    OptNoNewline(p.event) && OptNoNewline(p.areaDesc) && OptNoNewline(p.severity)
    && OptNoNewline(p.status) && OptNoNewline(p.headline)
  }

  predicate PeriodSingleLine(period: ForecastPeriod) {
    OptNoNewline(period.name) && OptNoNewline(period.temperatureUnit) && OptNoNewline(period.windSpeed)
    && OptNoNewline(period.windDirection) && OptNoNewline(period.shortForecast)
  }

  predicate ConditionsSingleLine(weather: seq<Condition>) {
    |weather| > 0 ==> NoNewline(weather[0].description)
  }

  predicate CurrentSingleLine(data: CurrentResponse) {
    NoNewline(data.name) && NoNewline(data.sys.country) && ConditionsSingleLine(data.weather)
  }

  /** The lines each period contributes to the `get_forecast` report. */
  function PeriodBlock(show: real -> string): ForecastPeriod -> seq<string> {
    period => PeriodLines(show, period)
  }

  /** The lines each selected day contributes to the `get_weather_forecast` report. */
  function DayBlock(rendering: Rendering): ForecastEntry -> seq<string> {
    entry => DayLines(rendering, entry)
  }

  // ---------------------------------------------------------------------
  // Alerts

  lemma {:induction false} AlertLinesSingleLine(feature: AlertFeature)
    requires AlertSingleLine(feature)
    ensures |AlertLines(feature)| == 6 && AllNoNewline(AlertLines(feature))
  {
  }

  /**
   * `formatAlert` gives six lines in a fixed order; a missing or empty field
   * reads "Unknown", a missing or empty headline "No headline".
   */
  lemma {:induction false} FormatAlertLines(feature: AlertFeature)
    requires AlertSingleLine(feature)
    ensures var p := feature.properties;
      var lines := Lines(FormatAlert(feature));
      && |lines| == 6
      && lines[0] == "Event: " + (if p.event.Some? && p.event.value != "" then p.event.value else "Unknown")
      && lines[1] == "Area: " + (if p.areaDesc.Some? && p.areaDesc.value != "" then p.areaDesc.value else "Unknown")
      && lines[2] == "Severity: " + (if p.severity.Some? && p.severity.value != "" then p.severity.value else "Unknown")
      && lines[3] == "Status: " + (if p.status.Some? && p.status.value != "" then p.status.value else "Unknown")
      && lines[4] == "Headline: " + (if p.headline.Some? && p.headline.value != "" then p.headline.value else "No headline")
      && lines[5] == "---"
  {
    AlertLinesSingleLine(feature);
    LinesJoin(AlertLines(feature));
  }

  /** `get_alerts` upper-cases the state first: codes that agree in upper case get the same reply. */
  lemma {:induction false} AlertsCaseInsensitive(a: string, b: string, nws: Request -> Option<AlertsResponse>)
    requires |a| == 2 && |b| == 2
    requires ToUpperCase(a) == ToUpperCase(b)
    ensures GetAlerts(a, nws) == GetAlerts(b, nws)
  {
  }

  lemma {:induction false} AlertsCaliforniaEitherCase(nws: Request -> Option<AlertsResponse>)
    ensures GetAlerts("ca", nws) == GetAlerts("CA", nws)
    ensures GetAlerts("cA", nws) == GetAlerts("CA", nws)
  {
    assert ToUpperCase("ca") == "CA";
    assert ToUpperCase("cA") == "CA";
    AlertsCaseInsensitive("ca", "CA", nws);
    AlertsCaseInsensitive("cA", "CA", nws);
  }

  /** Alerts under a header and a blank line. */
  lemma {:induction false} AlertBlocksReportLines(header: string, features: seq<AlertFeature>)
    requires NoNewline(header) && |features| >= 1
    requires forall i :: 0 <= i < |features| ==> AlertSingleLine(features[i])
    ensures var lines := Lines(header + "\n\n" + Join(Map(FormatAlert, features), "\n"));
      && lines == [header, ""] + Flatten(Map(AlertLines, features))
      && |lines| == 2 + 6 * |features|
  {
    var blocks := Map(AlertLines, features);
    JoinOfBlocks(features, AlertLines, FormatAlert, "\n");
    forall i | 0 <= i < |blocks| ensures |blocks[i]| == 6 && AllNoNewline(blocks[i]) {
      AlertLinesSingleLine(features[i]);
    }
    FlattenNoNewline(blocks);
    FlattenUniform(blocks, 6);
    ReportLines(header, Map(FormatAlert, features), Flatten(blocks));
  }

  /**
   * With active alerts, the report is a header line, a blank line, then the
   * six lines of every alert in order.
   */
  lemma {:induction false} AlertsReportLines(state: string, nws: Request -> Option<AlertsResponse>, data: AlertsResponse)
    requires |state| == 2 && NoNewline(state)
    requires nws(NwsRequest(AlertsUrl(state))) == Some(data)
    requires Features(data) != []
    requires forall i :: 0 <= i < |Features(data)| ==> AlertSingleLine(Features(data)[i])
    ensures var lines := Lines(GetAlerts(state, nws).envelope.Text());
      && lines == ["Active alerts for " + ToUpperCase(state) + ":", ""] + Flatten(Map(AlertLines, Features(data)))
      && |lines| == 2 + 6 * |Features(data)|
  {
    var features := Features(data);
    ToUpperCaseKeepsNewlinesOut(state);
    AlertBlocksReportLines(AlertsHeader(ToUpperCase(state)), features);
  }


  // ---------------------------------------------------------------------
  // Point forecast

  lemma {:induction false} PeriodLinesSingleLine(show: real -> string, period: ForecastPeriod)
    requires PeriodSingleLine(period)
    requires period.temperature.Some? ==> NoNewline(show(period.temperature.value))
    ensures |PeriodLines(show, period)| == 5 && AllNoNewline(PeriodLines(show, period))
  {
  }

  /**
   * A forecast period gives five lines ending in "---". Fallbacks: name
   * "Unknown", temperature "Unknown" (also for 0), unit "F", wind speed
   * "Unknown", wind direction "", short forecast "No forecast available".
   */
  lemma {:induction false} FormatPeriodLines(show: real -> string, period: ForecastPeriod)
    requires PeriodSingleLine(period)
    requires period.temperature.Some? ==> NoNewline(show(period.temperature.value))
    ensures var p := period;
      var lines := Lines(FormatPeriod(show, period));
      && |lines| == 5
      && lines[0] == (if p.name.Some? && p.name.value != "" then p.name.value else "Unknown") + ":"
      && lines[1] == "Temperature: "
           + (if p.temperature.Some? && p.temperature.value != 0.0 then show(p.temperature.value) else "Unknown")
           + "°" + (if p.temperatureUnit.Some? && p.temperatureUnit.value != "" then p.temperatureUnit.value else "F")
      && lines[2] == "Wind: " + (if p.windSpeed.Some? && p.windSpeed.value != "" then p.windSpeed.value else "Unknown")
           + " " + (if p.windDirection.Some? && p.windDirection.value != "" then p.windDirection.value else "")
      && lines[3] == (if p.shortForecast.Some? && p.shortForecast.value != "" then p.shortForecast.value
                      else "No forecast available")
      && lines[4] == "---"
  {
    var lines := PeriodLines(show, period);
    PeriodLinesSingleLine(show, period);
    LinesJoin(lines);
    assert Lines(FormatPeriod(show, period)) == lines;
  }

  /** The "Tonight" period, whose wind direction is missing. */
  lemma {:induction false} TonightPeriod(show: real -> string)
    requires show(55.0) == "55"
    ensures Lines(FormatPeriod(show, ForecastPeriod(Some("Tonight"), Some(55.0), Some("F"), Some("5 mph"), None, Some("Clear"))))
         == ["Tonight:", "Temperature: 55°F", "Wind: 5 mph ", "Clear", "---"]
  {
    var p := ForecastPeriod(Some("Tonight"), Some(55.0), Some("F"), Some("5 mph"), None, Some("Clear"));
    FormatPeriodLines(show, p);
    assert "Tonight" + ":" == "Tonight:";
    assert "Temperature: " + "55" + "°" + "F" == "Temperature: 55°F";
    assert "Wind: " + "5 mph" + " " + "" == "Wind: 5 mph ";
    assert PeriodLines(show, p) == ["Tonight:", "Temperature: 55°F", "Wind: 5 mph ", "Clear", "---"];
    LinesJoin(PeriodLines(show, p));
  }

  /**
   * Without grid point data, or without a forecast URL in it, `get_forecast`
   * issues one request only: its reply does not depend on the forecast service.
   */
  lemma {:induction false} ForecastStopsWithoutUrl(
    latitude: real, longitude: real, rendering: Rendering, points: Request -> Option<PointsResponse>,
    forecasts1: Request -> Option<ForecastResponse>, forecasts2: Request -> Option<ForecastResponse>)
    requires -90.0 <= latitude <= 90.0 && -180.0 <= longitude <= 180.0
    requires var grid := points(NwsRequest(PointsUrl(rendering, latitude, longitude)));
      grid.None? || grid.value.properties.None? || !TruthyString(grid.value.properties.value.forecast)
    ensures GetForecast(latitude, longitude, rendering, points, forecasts1)
         == GetForecast(latitude, longitude, rendering, points, forecasts2)
    ensures |GetForecast(latitude, longitude, rendering, points, forecasts1).requests| == 1
  {
  }

  /** Forecast periods under a header and a blank line. */
  lemma {:induction false} PeriodsReportLines(show: real -> string, header: string, periods: seq<ForecastPeriod>)
    requires NoNewline(header) && |periods| >= 1
    requires forall x :: NoNewline(show(x))
    requires forall i :: 0 <= i < |periods| ==> PeriodSingleLine(periods[i])
    ensures var lines := Lines(header + "\n\n" + Join(Map(PeriodFormatter(show), periods), "\n"));
      && lines == [header, ""] + Flatten(Map(PeriodBlock(show), periods))
      && |lines| == 2 + 5 * |periods|
  {
    var blocks := Map(PeriodBlock(show), periods);
    JoinOfBlocks(periods, PeriodBlock(show), PeriodFormatter(show), "\n");
    forall i | 0 <= i < |blocks| ensures |blocks[i]| == 5 && AllNoNewline(blocks[i]) {
      PeriodLinesSingleLine(show, periods[i]);
    }
    FlattenNoNewline(blocks);
    FlattenUniform(blocks, 5);
    ReportLines(header, Map(PeriodFormatter(show), periods), Flatten(blocks));
  }

  /**
   * With periods, the report is a header line, a blank line, then the five
   * lines of every period in order.
   */
  lemma {:induction false} ForecastReportLines(
    latitude: real, longitude: real, rendering: Rendering,
    points: Request -> Option<PointsResponse>, forecasts: Request -> Option<ForecastResponse>,
    url: string, data: ForecastResponse)
    requires -90.0 <= latitude <= 90.0 && -180.0 <= longitude <= 180.0
    requires var grid := points(NwsRequest(PointsUrl(rendering, latitude, longitude)));
      grid.Some? && ForecastUrl(grid.value) == Some(url)
    requires forecasts(NwsRequest(url)) == Some(data)
    requires Periods(data) != []
    requires SingleLine(rendering)
    requires forall i :: 0 <= i < |Periods(data)| ==> PeriodSingleLine(Periods(data)[i])
    ensures var reply := GetForecast(latitude, longitude, rendering, points, forecasts);
      var lines := Lines(reply.envelope.Text());
      && reply.requests == [NwsRequest(PointsUrl(rendering, latitude, longitude)), NwsRequest(url)]
      && lines == [ForecastHeader(rendering.show, latitude, longitude), ""]
                  + Flatten(Map(PeriodBlock(rendering.show), Periods(data)))
      && |lines| == 2 + 5 * |Periods(data)|
  {
    var periods := Periods(data);
    var header := ForecastHeader(rendering.show, latitude, longitude);
    PeriodsReportLines(rendering.show, header, periods);
    assert GetForecast(latitude, longitude, rendering, points, forecasts).envelope.Text()
        == header + "\n\n" + Join(Map(PeriodFormatter(rendering.show), periods), "\n");
  }


  // ---------------------------------------------------------------------
  // Worldwide tools

  /**
   * Without an API key both worldwide tools answer with the configuration
   * error and issue no request.
   */
  lemma {:induction false} MissingApiKey(
    city: string, country: Option<string>, days: Option<real>, apiKey: Option<string>, rendering: Rendering,
    current: Request -> Option<CurrentResponse>, daily: Request -> Option<CityForecast>)
    requires days.None? || 1.0 <= days.value <= 5.0
    requires apiKey.None? || apiKey.value == ""
    ensures GetCurrentWeather(city, country, apiKey, rendering, current)
         == Reply(TextEnvelope(API_KEY_MISSING), [])
    ensures GetWeatherForecast(city, country, days, apiKey, rendering, daily)
         == Reply(TextEnvelope(API_KEY_MISSING), [])
  {
  }

  /**
   * The failure text names the place as the query does, with ", " where the
   * query has ",": an empty country counts as no country in both.
   */
  lemma {:induction false} QueryAndPlaceAgree(city: string, country: Option<string>)
    ensures Query(city, country) == Query(city, Some(""))
        <==> Place(city, country) == Place(city, Some(""))
    ensures country.Some? && country.value != "" ==>
      Query(city, country) == city + "," + country.value && Place(city, country) == city + ", " + country.value
    ensures Query(city, None) == Place(city, None) == city
    ensures Query(city, Some("")) == Place(city, Some("")) == city
  {
    if TruthyString(country) {
      assert |Query(city, country)| > |city|;
      assert |Place(city, country)| > |city|;
    }
  }

  /** Every candidate line of current weather is one line. */
  lemma {:induction false} CurrentCandidates(rendering: Rendering, data: CurrentResponse)
    requires SingleLine(rendering) && CurrentSingleLine(data)
    ensures AllNoNewline(CurrentLines(rendering, data))
  {
    var show := rendering.show;
    assert NoNewline(show(data.main.temp)) && NoNewline(show(data.main.feelsLike));
    assert NoNewline(show(data.main.humidity)) && NoNewline(show(data.main.pressure));
    assert NoNewline(show(data.wind.speed));
    assert NoNewline(Description(data.weather));
    assert NoNewline(WindDirection(show, data.wind.deg));
    assert data.visibility.Some? ==> NoNewline(rendering.toFixed(data.visibility.value / 1000.0, 1));
  }

  /** `filter(Boolean)` on seven lines of which only the last may be empty. */
  lemma {:induction false} CompactKeepsSix(candidates: seq<string>)
    requires |candidates| == 7
    requires forall i :: 0 <= i < 6 ==> candidates[i] != ""
    ensures Compact(candidates) == candidates[..6] + (if candidates[6] == "" then [] else [candidates[6]])
  {
    var six := candidates[..6];
    assert candidates == six + [candidates[6]];
    CompactAppend(six, [candidates[6]]);
    assert Compact(six) == six;
  }

  /**
   * Current weather: six fixed lines, plus a visibility line only when the
   * visibility is present and not 0 (`filter(Boolean)` drops the empty line).
   */
  lemma {:induction false} CurrentWeatherLines(
    city: string, country: Option<string>, apiKey: Option<string>, rendering: Rendering,
    openWeather: Request -> Option<CurrentResponse>, data: CurrentResponse)
    requires TruthyString(apiKey)
    requires openWeather(OpenWeatherRequest("weather", QueryParams(city, country, apiKey.value))) == Some(data)
    requires SingleLine(rendering) && CurrentSingleLine(data)
    ensures var show := rendering.show;
      var visible := data.visibility.Some? && data.visibility.value != 0.0;
      var lines := Lines(GetCurrentWeather(city, country, apiKey, rendering, openWeather).envelope.Text());
      && |lines| == (if visible then 7 else 6)
      && lines[0] == "Current weather for " + data.name + ", " + data.sys.country + ":"
      && lines[1] == "Temperature: " + show(data.main.temp) + "°C (feels like " + show(data.main.feelsLike) + "°C)"
      && lines[2] == "Weather: " + (if |data.weather| > 0 && data.weather[0].description != ""
                                    then data.weather[0].description else "Unknown")
      && lines[3] == "Humidity: " + show(data.main.humidity) + "%"
      && lines[4] == "Pressure: " + show(data.main.pressure) + " hPa"
      && lines[5] == "Wind: " + show(data.wind.speed) + " m/s "
                     + (if data.wind.deg.Some? && data.wind.deg.value != 0.0 then show(data.wind.deg.value) + "°"
                        else "Unknown")
      && (visible ==> lines[6] == "Visibility: " + rendering.toFixed(data.visibility.value / 1000.0, 1) + " km")
  {
    var candidates := CurrentLines(rendering, data);
    CurrentCandidates(rendering, data);
    CompactKeepsSix(candidates);
    var kept := Compact(candidates);
    assert AllNoNewline(kept) by {
      forall i | 0 <= i < |kept| ensures NoNewline(kept[i]) {
        assert kept[i] == candidates[i];
      }
    }
    LinesJoin(kept);
    assert GetCurrentWeather(city, country, apiKey, rendering, openWeather).envelope.Text() == Join(kept, "\n");
  }

  /** Entries at indices 0, 8, 16, ... below `8 * days` are exactly the ones selected. */
  lemma {:induction false} DailySelectionComplete<T>(xs: seq<T>, days: nat, j: nat)
    requires j < |xs| && j % 8 == 0 && j / 8 < days
    ensures j / 8 < |DailySelection(xs, days)| && DailySelection(xs, days)[j / 8] == xs[j]
  {
    assert 8 * (j / 8) == j;
  }

  /** Forty 3-hour entries (five days), two days requested: the entries at 0 and 8. */
  lemma {:induction false} DailySelectionTwoOfFive<T>(xs: seq<T>)
    requires |xs| == 40
    ensures DailySelection(xs, 2) == [xs[0], xs[8]]
  {
  }

  lemma {:induction false} DayLinesSingleLine(rendering: Rendering, entry: ForecastEntry)
    requires SingleLine(rendering) && ConditionsSingleLine(entry.weather)
    ensures |DayLines(rendering, entry)| == 6 && AllNoNewline(DayLines(rendering, entry))
  {
    var show := rendering.show;
    assert NoNewline(rendering.localeDate(entry.dt * 1000.0));
    assert NoNewline(show(entry.main.temp)) && NoNewline(show(entry.main.feelsLike));
    assert NoNewline(show(entry.main.humidity)) && NoNewline(show(entry.wind.speed));
    assert NoNewline(Description(entry.weather));
    assert NoNewline(WindDirection(show, entry.wind.deg));
  }

  /**
   * One day of `get_weather_forecast`: the date, temperature, description,
   * humidity and wind lines, then "---"; a missing first condition or an empty
   * description reads "Unknown", and so does a missing or 0 wind direction.
   */
  lemma {:induction false} FormatDayLines(rendering: Rendering, entry: ForecastEntry)
    requires SingleLine(rendering) && ConditionsSingleLine(entry.weather)
    ensures var show := rendering.show;
      var lines := Lines(FormatDay(rendering, entry));
      && |lines| == 6
      && lines[0] == rendering.localeDate(entry.dt * 1000.0) + ":"
      && lines[1] == "Temperature: " + show(entry.main.temp) + "°C (feels like " + show(entry.main.feelsLike) + "°C)"
      && lines[2] == "Weather: " + (if |entry.weather| > 0 && entry.weather[0].description != ""
                                    then entry.weather[0].description else "Unknown")
      && lines[3] == "Humidity: " + show(entry.main.humidity) + "%"
      && lines[4] == "Wind: " + show(entry.wind.speed) + " m/s "
                     + (if entry.wind.deg.Some? && entry.wind.deg.value != 0.0 then show(entry.wind.deg.value) + "°"
                        else "Unknown")
      && lines[5] == "---"
  {
    DayLinesSingleLine(rendering, entry);
    LinesJoin(DayLines(rendering, entry));
  }

  /** The selected days of a multi-day forecast, under a header and a blank line. */
  lemma {:induction false} DaysReportLines(rendering: Rendering, header: string, selected: seq<ForecastEntry>)
    requires SingleLine(rendering) && NoNewline(header) && |selected| >= 1
    requires forall i :: 0 <= i < |selected| ==> ConditionsSingleLine(selected[i].weather)
    ensures var lines := Lines(header + "\n\n" + Join(Map(DayFormatter(rendering), selected), "\n"));
      && lines == [header, ""] + Flatten(Map(DayBlock(rendering), selected))
      && |lines| == 2 + 6 * |selected|
  {
    var blocks := Map(DayBlock(rendering), selected);
    JoinOfBlocks(selected, DayBlock(rendering), DayFormatter(rendering), "\n");
    forall i | 0 <= i < |blocks| ensures |blocks[i]| == 6 && AllNoNewline(blocks[i]) {
      DayLinesSingleLine(rendering, selected[i]);
    }
    FlattenNoNewline(blocks);
    FlattenUniform(blocks, 6);
    ReportLines(header, Map(DayFormatter(rendering), selected), Flatten(blocks));
  }

  /**
   * Multi-day forecast: a header naming the requested number of days, a
   * blank line, then six lines for each selected day; as many days as were
   * requested (truncated) or as the list has, whichever is fewer.
   */
  lemma {:induction false} WeatherForecastLines(
    city: string, country: Option<string>, days: Option<real>, apiKey: Option<string>,
    rendering: Rendering, openWeather: Request -> Option<CityForecast>, data: CityForecast)
    requires days.None? || 1.0 <= days.value <= 5.0
    requires TruthyString(apiKey)
    requires openWeather(OpenWeatherRequest("forecast", QueryParams(city, country, apiKey.value))) == Some(data)
    requires data.list != []
    requires SingleLine(rendering) && NoNewline(data.city.name) && NoNewline(data.city.country)
    requires forall i :: 0 <= i < |data.list| ==> ConditionsSingleLine(data.list[i].weather)
    ensures var n := DaysOrDefault(days);
      var selected := DailySelection(data.list, n.Floor);
      var lines := Lines(GetWeatherForecast(city, country, days, apiKey, rendering, openWeather).envelope.Text());
      && lines == [rendering.show(n) + "-day forecast for " + data.city.name + ", " + data.city.country + ":", ""]
                  + Flatten(Map(DayBlock(rendering), selected))
      && |selected| == (if n.Floor <= (|data.list| + 7) / 8 then n.Floor else (|data.list| + 7) / 8)
      && |lines| == 2 + 6 * |selected|
  {
    var n := DaysOrDefault(days);
    var selected := DailySelection(data.list, n.Floor);
    var header := DailyHeader(rendering, n, data);
    forall i | 0 <= i < |selected| ensures ConditionsSingleLine(selected[i].weather) {
      assert selected[i] == data.list[8 * i];
    }
    DaysReportLines(rendering, header, selected);
    assert GetWeatherForecast(city, country, days, apiKey, rendering, openWeather).envelope.Text()
        == header + "\n\n" + Join(Map(DayFormatter(rendering), selected), "\n");
  }


  /** An empty forecast list still gives the header, then two empty lines. */
  lemma {:induction false} WeatherForecastEmptyList(
    city: string, country: Option<string>, days: Option<real>, apiKey: Option<string>,
    rendering: Rendering, openWeather: Request -> Option<CityForecast>, data: CityForecast)
    requires days.None? || 1.0 <= days.value <= 5.0
    requires TruthyString(apiKey)
    requires openWeather(OpenWeatherRequest("forecast", QueryParams(city, country, apiKey.value))) == Some(data)
    requires data.list == []
    requires SingleLine(rendering) && NoNewline(data.city.name) && NoNewline(data.city.country)
    ensures Lines(GetWeatherForecast(city, country, days, apiKey, rendering, openWeather).envelope.Text())
         == [DailyHeader(rendering, DaysOrDefault(days), data), "", ""]
  {
    var header := DailyHeader(rendering, DaysOrDefault(days), data);
    var all := [header, "", ""];
    assert all[1..] == ["", ""] && all[1..][1..] == [""];
    assert Join(["", ""], "\n") == "\n";
    assert Join(all, "\n") == header + "\n" + "\n";
    assert header + "\n\n" + "" == header + "\n" + "\n";
    LinesJoin(all);
  }
}
