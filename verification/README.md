# Weather server: text shaping and request logic

A model of the weather tool server's core: the three tools `get-alerts`,
`get-forecast` and `get-current-weather`, the two block formatters they use,
and the query building of the commercial weather API helper. The source is
`Initial-Training/quickstart-resource/weather-server-typescript/build/index.js`.

The model is laid out as follows.

- **Js.dfy** holds the JavaScript semantics the code relies on:
  - optional JSON fields (`Option`);
  - truthiness and the `x || fallback` idiom (`""` and `0` count as absent);
  - ASCII `toUpperCase`;
  - the decimal text of integers, together with its inverse `ParseInt`;
  - `Math.round`;
  - the text of `metres / 1000`, with a decimal reader that reads it back.
- **Lines.dfy** holds `Array#join` and its inverse view: a text as the lines
  between its newline characters. It proves that joining newline-free lines
  and splitting the result gives the lines back.
- **Formatters.dfy** holds `formatAlert` and the forecast-period formatter.
- **Requests.dfy** holds the outbound requests as values and the `searchParams`
  of a URL as a class. `makeOpenWeatherRequest`'s query building is a
  method with the source's loop.
- **Handlers.dfy** holds the three tools. Each is a function from the tool
  arguments and the upstream replies to the requests issued, in order, and
  the tool text. An upstream reply is `None` when the request helper
  returned `null`. That covers a network failure, a non-2xx status and, for
  the commercial API, a missing API key. A reply to a request the handler
  never issues is ignored, and lemmas state this.

A JSON number whose text comes from JavaScript's floating-point rendering is
a `JsNumber`: its value plus the text the program prints for it. This
covers the coordinates and the wind speed.

## Model

| member | source | states |
|---|---|---|
| Formatters.FormatAlert | Initial-Training/quickstart-resource/weather-server-typescript/build/index.js:52-62 | `formatAlert`: when no field has a line break of its own, the newline-joined block splits back into exactly its six field lines |
| Formatters.AlertBlock | Initial-Training/quickstart-resource/weather-server-typescript/build/index.js:52-62 | an alert block is exactly six lines. They are Event, Area, Severity, Status and Headline, each verbatim when a non-empty string and `Unknown` (`No headline` for the headline) otherwise, then `---`. |
| Formatters.TemperatureText | Initial-Training/quickstart-resource/weather-server-typescript/build/index.js:165 | a missing or zero temperature prints `Unknown`; any other temperature prints as integer text that reads back as the temperature |
| Formatters.FormatPeriod | Initial-Training/quickstart-resource/weather-server-typescript/build/index.js:163-169 | the period formatter: when no string field has a line break of its own, the newline-joined block splits back into exactly its five field lines |
| Formatters.PeriodBlock | Initial-Training/quickstart-resource/weather-server-typescript/build/index.js:163-169 | a period block is exactly five lines: the name (default `Unknown`) and `:`; the temperature (`Unknown` when falsy, including 0), `°` and the unit (default `F`); `Wind: `, the speed (default `Unknown`), a space and the direction (default empty); the short forecast (default `No forecast available`); `---` |
| Requests.AlertsUrlIgnoresCase | Initial-Training/quickstart-resource/weather-server-typescript/build/index.js:72-73 | two state codes give the same alerts URL if and only if they differ only in letter case |
| Requests.AlertsUrlNormalized | Initial-Training/quickstart-resource/weather-server-typescript/build/index.js:72-73 | upper-casing a state code before asking does not change the URL |
| Requests.OpenWeatherRequest | Initial-Training/quickstart-resource/weather-server-typescript/build/index.js:28-38 | the request the helper sends: none if and only if the API key is empty. Otherwise a GET on `<base>/<endpoint>` whose query is `appid=<key>`, `units=metric`, then exactly the caller's parameters in order. |
| Requests.SearchParams.Append | Initial-Training/quickstart-resource/weather-server-typescript/build/index.js:34-37 | `append` adds one name/value pair at the end and keeps the earlier ones |
| Requests.MakeOpenWeatherRequest | Initial-Training/quickstart-resource/weather-server-typescript/build/index.js:28-38 | no request if and only if the API key is empty. Otherwise a GET on `<base>/<endpoint>` whose query is `appid=<key>`, `units=metric`, then exactly the caller's parameters in order. |
| Handlers.GetAlerts | Initial-Training/quickstart-resource/weather-server-typescript/build/index.js:71-106 | exactly one request, for `/alerts?area=` plus the upper-cased code. A failed request gives `Failed to retrieve alerts data`. A missing or empty feature list gives `No active alerts for <CODE>`. Otherwise the text is `Active alerts for <CODE>:` followed by the formatted alerts. |
| Handlers.GetAlertsIgnoresCase | Initial-Training/quickstart-resource/weather-server-typescript/build/index.js:72-97 | state codes that differ only in letter case give the same requests and the same text |
| Handlers.AlertsListing | Initial-Training/quickstart-resource/weather-server-typescript/build/index.js:96-97 | the alerts text is a header line, an empty line, then the six lines of each alert in feature order (2 + 6n lines) |
| Handlers.GridFailureText | Initial-Training/quickstart-resource/weather-server-typescript/build/index.js:123 | the grid-failure text names the latitude and the longitude as given and ends with the note that only US locations are supported |
| Handlers.GetForecast | Initial-Training/quickstart-resource/weather-server-typescript/build/index.js:114-179 | the grid-point request always comes first. A second request, for the forecast URL, is made if and only if the grid-point reply has a non-empty forecast URL. Each failure point has its own text: grid failure (naming both coordinates and the US-only note), missing URL, forecast failure, no periods. Otherwise the text is the forecast listing. |
| Handlers.ForecastNeedsGridPoint | Initial-Training/quickstart-resource/weather-server-typescript/build/index.js:128-140 | without a forecast URL only one request is made and the forecast reply plays no part |
| Handlers.ForecastListing | Initial-Training/quickstart-resource/weather-server-typescript/build/index.js:163-170 | the forecast text is a header line naming both coordinates, an empty line, then the five lines of each period in order (2 + 5n lines) |
| Handlers.GeocodeQuery | Initial-Training/quickstart-resource/weather-server-typescript/build/index.js:185-188 | the query begins with the city, and is the city alone exactly when no non-empty country is given |
| Handlers.GeocodeParams | Initial-Training/quickstart-resource/weather-server-typescript/build/index.js:185-188 | the query `q` starts as the city and gets `,country` appended only when a non-empty country is given |
| Handlers.GeocodeQuerySplits | Initial-Training/quickstart-resource/weather-server-typescript/build/index.js:185-188 | for a city without a comma the query separates again: the city before the first comma, the country after it, and a comma is present if and only if a country was given |
| Handlers.NotFoundText | Initial-Training/quickstart-resource/weather-server-typescript/build/index.js:195 | the not-found text begins with `Could not find coordinates for <city>`; it is exactly that without a country and ends with `, <country>` when one is given |
| Handlers.GetCurrentWeather | Initial-Training/quickstart-resource/weather-server-typescript/build/index.js:183-237 | no request at all without an API key. Otherwise the geocoding request comes first. The conditions request for the first match is made if and only if the key is set and the geocoding reply is a non-empty list. With no location the text is the not-found text. A failed conditions request has its own text. The handler rejects exactly when the conditions have no `weather` entry; otherwise the text is the summary lines joined by newlines. |
| Handlers.FirstMatchOnly | Initial-Training/quickstart-resource/weather-server-typescript/build/index.js:200 | only the first geocoding match affects the result |
| Handlers.WeatherNeedsLocation | Initial-Training/quickstart-resource/weather-server-typescript/build/index.js:189-206 | without a located city the conditions reply plays no part |
| Handlers.BuildWeatherInfo | Initial-Training/quickstart-resource/weather-server-typescript/build/index.js:217-228 | the summary lines as built by the array literal and the conditional `push` |
| Handlers.SummaryLines | Initial-Training/quickstart-resource/weather-server-typescript/build/index.js:217-228 | seven fixed lines, plus a `Visibility: ` line if and only if the visibility is present and not zero |
| Handlers.FixedSummaryLines | Initial-Training/quickstart-resource/weather-server-typescript/build/index.js:217-225 | the seven fixed lines; none starts with `Visibility: ` |
| Handlers.VisibilityEntry | Initial-Training/quickstart-resource/weather-server-typescript/build/index.js:227 | the visibility line starts with `Visibility: ` and is one line |
| Handlers.WindLine | Initial-Training/quickstart-resource/weather-server-typescript/build/index.js:224 | the wind line is one line when the speed text is |
| Handlers.VisibilityLine | Initial-Training/quickstart-resource/weather-server-typescript/build/index.js:226-233 | with single-line text fields, the summary text has a line starting with `Visibility: ` if and only if the visibility is present and not zero |
| Handlers.SummaryLinesSplit | Initial-Training/quickstart-resource/weather-server-typescript/build/index.js:233 | the joined summary text splits back into the summary lines |
| Js.ToUpperCase | Initial-Training/quickstart-resource/weather-server-typescript/build/index.js:72 | upper-casing keeps the length, leaves no lower-case ASCII letter and maps each character on its own |
| Js.ToUpperCaseEqual | Initial-Training/quickstart-resource/weather-server-typescript/build/index.js:72 | two strings upper-case alike if and only if, position by position, their characters are equal or are the lower- and upper-case forms of the same ASCII letter |
| Js.ToUpperCaseIdempotent | Initial-Training/quickstart-resource/weather-server-typescript/build/index.js:72 | upper-casing twice is upper-casing once |
| Js.IntToStringRoundTrip | Initial-Training/quickstart-resource/weather-server-typescript/build/index.js:222-223 | the text of an integer is signed decimal text that reads back as the integer |
| Js.Round | Initial-Training/quickstart-resource/weather-server-typescript/build/index.js:220 | `Math.round` gives the integer within one half of `x`, ties going up |
| Js.ThousandthsToString | Initial-Training/quickstart-resource/weather-server-typescript/build/index.js:227 | the text of `m / 1000` is negative-signed if and only if m is negative. It has a decimal point if and only if m is not a multiple of 1000, and then no trailing zero. |
| Js.ThousandthsToStringValue | Initial-Training/quickstart-resource/weather-server-typescript/build/index.js:227 | the text of `m / 1000` is a decimal number that reads back as exactly m / 1000 |
| Lines.Join | Initial-Training/quickstart-resource/weather-server-typescript/build/index.js:61 | `join` of no items is the empty text, and otherwise the text begins with the first item |
| Lines.SplitJoinLines | Initial-Training/quickstart-resource/weather-server-typescript/build/index.js:61 | newline-free lines joined by `\n` split back into the same lines |
| Lines.SplitJoin | Initial-Training/quickstart-resource/weather-server-typescript/build/index.js:97 | the lines of a newline-joined list are the lines of its items, in order |

## Left out

- The HTTP requests themselves are left out: `fetch`, the request headers, `response.ok`, JSON parsing and the `try`/`catch` of both request helpers. Their outcome is an `Option` input of each handler.
- `console.error` logging is left out; it is a side effect only.
- The server object, tool registration, the stdio transport and `main` are framework plumbing and are left out.
- The argument schemas are left out because they run inside a validation library. They appear only as preconditions: the state code has two characters, latitude lies in [-90, 90] and longitude in [-180, 180].
- Reading the API key from the environment is left out; the key is a parameter.
- Floating-point text is not computed. This covers `toFixed(4)` in the grid-point URL, `${latitude}`, `lat.toString()`, `lon.toString()` and the wind speed. The value and its text travel together as a `JsNumber`, and the grid-point request is described by its coordinates (`NwsPoints`).
- Js.ToUpperCase: only ASCII letters are mapped; Unicode case mapping is not modelled.
- Js.IntToString: the text is plain decimal. JavaScript switches to exponent notation from 10^21 on, and that range is not modelled.
- Js.ThousandthsToString: the text is the exact decimal expansion of `m / 1000` (its value is proved by `ThousandthsToStringValue`). JavaScript prints the shortest text that reads back as the same double, and that equals the exact expansion only for fewer than 15 significant digits; larger visibilities are not modelled.
- The conditions reply holds temperatures as reals. Humidity, pressure, wind direction and visibility are integers, which is what the API returns. NaN and infinities are not modelled.
- Handlers.GetCurrentWeather: some reads of a missing property throw in JavaScript and reject the call. That happens for `sys`, `main` or `wind` of a conditions reply, and for the first geocoding match without `lat` or `lon` (index.js lines 203-204, before the second request is sent). The model takes those as present and models only the missing `weather[0]` as a rejection.
- Handlers.GetAlerts: an alert feature without `properties` makes `formatAlert` throw (index.js line 53), and the call rejects. The model takes `properties` as present.
- Formatters.TemperatureText: the forecast temperature is an integer, as the forecast endpoint gives it. A fractional temperature (printed with its decimals) and NaN (falsy, printed as `Unknown`) are not modelled.
- Requests.MakeOpenWeatherRequest: the URL is kept as its base plus an ordered parameter list. Serialisation and percent-encoding by `URL#toString` are not modelled.
- `mcp-training/main.py` is not part of this model: it returns a constant string and has no logic.
