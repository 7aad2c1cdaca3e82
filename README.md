# Weather and hello-world tool servers, modelled in Dafny

This project models the response-shaping layer of two example tool servers.
The servers answer tool calls with an envelope `{ content: [{ type: "text", text }] }`:

- **hello-world** has two tools. `say_hello` greets a name or the world. `get_time` reports the clock.
- **worldwide-weather** has four tools:
  - `get_alerts` and `get_forecast` call the National Weather Service API.
  - `get_current_weather` and `get_weather_forecast` call the OpenWeatherMap API.

Each handler is a pure Dafny function of its validated arguments and of its upstream service.
The service is a function from the request issued to the parsed payload, or `None` when the fetch fails.
A weather handler returns a `Reply`: its envelope and the requests it issued, in order.
This makes it possible to state when no request is made (missing API key) and when the second `get_forecast` request is skipped (no forecast URL).

JavaScript truthiness is modelled explicitly in `Js`:

- an optional string counts as missing when it is absent or `""`;
- an optional number counts as missing when it is absent or `0`.

So a temperature of 0 prints "Unknown", a wind direction of 0° prints "Unknown", and a visibility of 0 drops the visibility line.
The model keeps these behaviours as written.

`Js.Split` is the inverse of `Join` with a one-character separator, and the round trip is proved both ways (`Js.SplitJoin`, `Js.JoinSplit`).
The line-structure lemmas use `Lines = Split(_, '\n')` to state the exact lines of each report and how many there are.
They assume that the payload's text fields and the rendered numbers hold no line break.

Files:

- `wrappers.dfy`: `Option`.
- `js.dfy`: the JavaScript operations the handlers use, and the lemmas about join and split.
- `tool_result.dfy`: the envelope.
- `hello_world.dfy`: `say_hello` and `get_time`.
- `weather.dfy`: the payload records, formatters, daily selection and the four weather handlers.
- `weather_properties.dfy`: the lemmas about the weather tools.

## Model

| member | source | states |
|---|---|---|
| `ToolResult.TextEnvelope` | src/examples/helloWorld.ts:24-31 | the envelope holds exactly one content block, of type "text", carrying the given text |
| `ToolResult.TextEnvelopeInjective` | src/examples/helloWorld.ts:24-31 | two text envelopes are equal exactly when their texts are equal |
| `HelloWorld.SayHello` | src/examples/helloWorld.ts:21-31 | a text envelope; "Hello, {name}!" for a present non-empty name, "Hello, World!" for an absent or empty one |
| `HelloWorld.SayHelloNamesCaller` | src/examples/helloWorld.ts:22 | a personalised greeting can be parsed back to exactly the caller's name |
| `HelloWorld.SayHelloInjective` | src/examples/helloWorld.ts:22 | different non-empty names get different greetings |
| `HelloWorld.SayHelloDefault` | src/examples/helloWorld.ts:22 | an absent name and "" give the same greeting, which equals the greeting for the name "World" |
| `HelloWorld.GetTime` | src/examples/helloWorld.ts:39-51 | a text envelope whose text is the prefix "Current time: " followed by exactly the clock string given |
| `HelloWorld.GetTimeRoundTrip` | src/examples/helloWorld.ts:47 | stripping the prefix from the `get_time` text gives back the clock string |
| `Js.OrElse` | src/examples/weather.ts:71-75 | `v || fallback` on an optional string: a present non-empty value is returned, otherwise the fallback, so the result is empty only when the fallback is |
| `Js.Join` | src/examples/weather.ts:77 | `join` gives "" for no parts and otherwise starts with the first part; `Js.SplitJoin` and `Js.JoinSplit` prove `Split` its inverse |
| `Js.Map` | src/examples/weather.ts:186 | `map` keeps the length and applies the callback to each entry at the same index |
| `Js.SplitJoin` | src/examples/weather.ts:70-77 | joining separator-free lines with the separator and splitting again gives the same lines |
| `Js.JoinSplit` | src/examples/weather.ts:70-77 | splitting a text and joining the pieces gives the text back |
| `Js.JoinAppend` | src/examples/weather.ts:187 | joining two non-empty lists equals joining each and putting the separator between them |
| `Js.JoinOfBlocks` | src/examples/weather.ts:186-187 | joining formatted blocks, where each block is the join of its own lines, equals joining all their lines in order |
| `Js.ReportLines` | src/examples/weather.ts:187 | "{header}\n\n" followed by joined blocks has as its lines the header, an empty line, then the blocks' lines |
| `Js.FlattenUniform` | src/examples/weather.ts:186 | blocks of k lines each give k lines per block in all |
| `Js.Compact` | src/examples/weather.ts:339 | `filter(Boolean)` leaves no empty string, has exactly as many entries as the input less its empty ones, and changes nothing when there is no empty entry; with `Js.CompactAppend` this fixes the result entry by entry |
| `Js.CompactAppend` | src/examples/weather.ts:339 | filtering a concatenation is concatenating the filtered parts |
| `Js.Take` | src/examples/weather.ts:394 | `slice(0, n)` gives the first min(n, length) entries, unchanged |
| `Js.ToUpperCase` | src/examples/weather.ts:159 | upper-casing keeps the length and maps each letter a-z to A-Z, leaving other characters as they are |
| `Js.ToUpperCaseIdempotent` | src/examples/weather.ts:159 | upper-casing twice is upper-casing once |
| `Weather.FormatAlert` | src/examples/weather.ts:68-78 | `formatAlert`: when the alert's fields hold no line break, its text splits back into exactly the alert's lines |
| `Weather.PeriodLines` | src/examples/weather.ts:266-272 | a forecast period has five lines, none of them empty, the last being "---" |
| `Weather.FormatPeriod` | src/examples/weather.ts:265-273 | the period callback: when the period's lines hold no line break, its text splits back into exactly those five lines |
| `Weather.CurrentLines` | src/examples/weather.ts:331-338 | current weather has seven candidate lines; the first six are never empty, and the visibility line is empty exactly when visibility is missing or 0 |
| `Weather.DayLines` | src/examples/weather.ts:402-409 | a forecast day has six lines, none of them empty, the last being "---" |
| `Weather.FormatDay` | src/examples/weather.ts:396-410 | the day callback: when the day's lines hold no line break, its text splits back into exactly those six lines |
| `Weather.Features` | src/examples/weather.ts:174 | `features || []`: empty exactly when the field is missing or empty, and otherwise the field's value |
| `Weather.Periods` | src/examples/weather.ts:252 | `properties?.periods || []`: empty exactly when the properties or the periods are missing or the periods are empty, and otherwise the periods |
| `Weather.Query` | src/examples/weather.ts:309 | the `q` parameter starts with the city and adds to it exactly when the country is present and non-empty |
| `Weather.Place` | src/examples/weather.ts:321 | the place in the failure text starts with the city and adds to it exactly when the country is present and non-empty |
| `Weather.DaysOrDefault` | src/examples/weather.ts:358 | the given number of days, or 3 when absent; within [1, 5] whenever the given value is |
| `Weather.EveryEighth` | src/examples/weather.ts:392-393 | the index filter keeps exactly the entries at indices 0, 8, 16, ... in order: ceil(n/8) of them, the k-th being entry 8k |
| `Weather.DailySelection` | src/examples/weather.ts:392-394 | the selection has min(days, ceil(n/8)) entries, the k-th being list entry 8k |
| `Weather.GetAlerts` | src/examples/weather.ts:158-197 | issues exactly one request, for the upper-cased state. An absent answer gives "Failed to retrieve alerts data". Missing or empty features give "No active alerts for {CODE}". Otherwise the text is "Active alerts for {CODE}:\n\n" followed by the formatted alerts joined by "\n" |
| `Weather.ForecastUrl` | src/examples/weather.ts:227-228 | a forecast URL is present exactly when the grid point's properties hold a non-empty `forecast`, and it is that value |
| `Weather.GetForecast` | src/examples/weather.ts:211-285 | the first request is for the grid point at 4-decimal precision. A second request, to the forecast URL, is made exactly when grid data and a non-empty URL are present. The failures are checked in order: grid point, URL, forecast data, no periods. Otherwise the text is the header and the formatted periods |
| `Weather.GetCurrentWeather` | src/examples/weather.ts:296-349 | a missing or empty key gives the configuration text and no request. Otherwise one request: q is "city,country" (or "city"), then appid and units=metric. An absent answer names "{city}, {country}" or "{city}", and any other answer gives the filtered lines joined by "\n" |
| `Weather.GetWeatherForecast` | src/examples/weather.ts:360-422 | the same key gate and query as current weather, on the forecast endpoint, and the same failure pattern with "forecast data" in place of "weather data". The text is "{days}-day forecast for {name}, {country}:\n\n" followed by the selected days formatted and joined |
| `WeatherProperties.FormatAlertLines` | src/examples/weather.ts:68-78 | exactly six lines in the order Event/Area/Severity/Status/Headline/"---". A missing or empty field reads "Unknown", and a missing or empty headline reads "No headline" |
| `WeatherProperties.AlertsCaseInsensitive` | src/examples/weather.ts:159-160 | state codes that agree once upper-cased give identical replies, requests included |
| `WeatherProperties.AlertsCaliforniaEitherCase` | src/examples/weather.ts:159 | "ca", "cA" and "CA" give identical replies |
| `WeatherProperties.AlertBlocksReportLines` | src/examples/weather.ts:186-187 | alerts under a header give the header, an empty line, then six lines per alert: 2 + 6n lines |
| `WeatherProperties.AlertsReportLines` | src/examples/weather.ts:174-187 | with active alerts, the reply's lines are "Active alerts for {CODE}:", "", then each alert's six lines in order |
| `WeatherProperties.FormatPeriodLines` | src/examples/weather.ts:265-273 | five lines ending in "---". The fallbacks are name "Unknown", temperature "Unknown" (also for 0), unit "F", wind speed "Unknown", wind direction "" and forecast "No forecast available" |
| `WeatherProperties.TonightPeriod` | src/examples/weather.ts:265-273 | the period Tonight/55/F/"5 mph"/Clear with no wind direction renders as "Tonight:", "Temperature: 55°F", "Wind: 5 mph ", "Clear", "---" |
| `WeatherProperties.ForecastStopsWithoutUrl` | src/examples/weather.ts:216-237 | without grid data, or without a non-empty forecast URL, there is one request, and the reply does not depend on the forecast service |
| `WeatherProperties.PeriodsReportLines` | src/examples/weather.ts:265-275 | periods under a header give the header, an empty line, then five lines per period: 2 + 5n lines |
| `WeatherProperties.ForecastReportLines` | src/examples/weather.ts:239-275 | with periods, both requests are issued in order, and the lines are "Forecast for {lat}, {lon}:", "", then each period's five lines |
| `WeatherProperties.MissingApiKey` | src/examples/weather.ts:297-306 | with the key absent or empty, both worldwide tools (also lines 361-370) return exactly the configuration-error text and issue no request |
| `WeatherProperties.QueryAndPlaceAgree` | src/examples/weather.ts:309-321 | q is "city,country" and the failure text names "city, country" for a non-empty country. Both are just the city for an absent or empty one |
| `WeatherProperties.CurrentCandidates` | src/examples/weather.ts:331-338 | none of the seven candidate lines holds a line break |
| `WeatherProperties.CompactKeepsSix` | src/examples/weather.ts:339 | filtering seven lines whose first six are non-empty keeps those six, plus the last when it is non-empty |
| `WeatherProperties.CurrentWeatherLines` | src/examples/weather.ts:327-339 | 7 lines with a truthy visibility and 6 without. Wind direction is "Unknown" for a missing or 0 `deg`, description is "Unknown" for a missing first entry or empty text, and the visibility line is "Visibility: {km} km" |
| `WeatherProperties.DailySelectionComplete` | src/examples/weather.ts:392-394 | every entry at an index 8k below the list length, with k < days, is selected, at position k |
| `WeatherProperties.DailySelectionTwoOfFive` | src/examples/weather.ts:392-394 | of forty 3-hour entries, two days select exactly entries 0 and 8 |
| `WeatherProperties.DayLinesSingleLine` | src/examples/weather.ts:402-409 | each day renders as six single-line lines |
| `WeatherProperties.FormatDayLines` | src/examples/weather.ts:396-410 | a day's text is six lines: "{date}:", the temperature with feels-like, "Weather: {description}" ("Unknown" for a missing first condition or empty description), the humidity, "Wind: {speed} m/s {deg}°" ("Unknown" for a missing or 0 direction), then "---" |
| `WeatherProperties.DaysReportLines` | src/examples/weather.ts:396-412 | selected days under a header give the header, an empty line, then six lines per day |
| `WeatherProperties.WeatherForecastLines` | src/examples/weather.ts:392-412 | the header shows the requested days, not the number produced. Then come min(floor(days), ceil(n/8)) days of six lines each: 2 + 6 * that many lines |
| `WeatherProperties.WeatherForecastEmptyList` | src/examples/weather.ts:392-412 | an empty list is not an error: the text is the header followed by two empty lines |

## Left out

- The HTTP helpers `makeNWSRequest` and `makeOpenWeatherRequest` (network I/O, JSON parsing, error logging) are not modelled. Their outcome is the upstream function's `Option` result. Transport failures, non-2xx statuses and unparsable bodies all become `None`. The NWS request records its two headers.
- `URLSearchParams` percent-encoding is not modelled. An OpenWeatherMap request keeps its base URL and endpoint, and its parameters as ordered name/value pairs.
- Schema validation (zod) is not modelled; its constraints are preconditions:
  - state of length 2;
  - latitude in [-90, 90] and longitude in [-180, 180];
  - days in [1, 5], default 3.
- `GetAlerts`: the length-2 precondition counts Unicode scalar values; the schema counts UTF-16 code units.
- Days are a real number, because the schema does not require an integer. `slice` truncates the value, and the header shows it as given.
- Number and date rendering is not modelled: template interpolation, `toFixed` and `toLocaleDateString`. These are the functions of the `Rendering` parameter. The arithmetic around them is kept: `visibility / 1000` and `dt * 1000`.
- The wall clock is not modelled. `get_time` takes the already formatted clock string.
- The API key is read from the environment at start-up. Here it is a handler parameter.
- Server construction, tool registration, the stdio transport, `main`, diagnostic logging and process exit are not modelled.
- Asynchronous suspension is not modelled. The order of the fetches is the order of `Reply.requests`.
- Payloads are not modelled as free-form JSON. They are the record types the source declares. A field the source reads with `?.` or `||` is optional. A field it dereferences directly (an alert's `properties`, `main`, `wind`, `sys`, `city`, `list`) is required, because a payload without it would make the source throw. Wrongly typed JSON values are not modelled.
- `Condition.description` is a plain string although the source reads it with `?.` and `||`: a missing description reads "Unknown" exactly as "" does, so "" stands for both.
- `Js.ToUpperCase`: covers ASCII letters only, because full Unicode case mapping (which can change the length, as in ß to SS) is not modelled.
- The lemmas about lines assume that text fields and rendered numbers contain no line break. A field with a line break adds lines of its own.
- Repeating a call with the same arguments against an unchanged upstream gives the same reply, because the handlers are functions. There is no separate lemma for it.
- `get_weather_forecast` has no empty-list check: an empty list gives the header and two empty lines (`WeatherProperties.WeatherForecastEmptyList`).
