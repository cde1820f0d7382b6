/** The three tools of the weather server, each a function from its
    arguments and the replies of the upstream APIs to the requests it issued
    and the text it returns. A reply is `None` when the request helper
    returned `null` (network failure, non-2xx status, or no API key); a reply
    for a request the handler never issues is ignored. */
module Handlers {
  import opened Js
  import opened Lines
  import opened Formatters
  import opened Requests

  /** The content of the tool result: the text of its single `text` item, or
      the rejection of the handler when it reads a property of `undefined`. */
  datatype Result = Text(text: string) | Rejected(reason: string)

  /** One tool call: the requests issued, in order, and the result. */
  datatype Reply = Reply(requests: seq<Request>, result: Result)

  /** `(xs || []).length !== 0` for an optional JSON array. */
  predicate HasItems<T>(xs: Option<seq<T>>)
  {
    xs.Some? && |xs.value| > 0
  }

  // ---------------------------------------------------------------------
  // get-alerts

  /** The alerts endpoint's reply: its optional `features` array. */
  datatype AlertsResponse = AlertsResponse(features: Option<seq<AlertFeature>>)

  /** The text listing the alerts of a state. */
  function AlertsText(code: string, features: seq<AlertFeature>): string
  {
    AlertsHeader(code) + "\n\n" + Join(FormatAlerts(features), "\n")
  }

  function AlertsHeader(code: string): string
  {
    "Active alerts for " + code + ":"
  }

  /** `get-alerts`: one request for the upper-cased state code; a failed
      request, a missing or empty feature list and a non-empty list each give
      their own text. The argument has length 2 (checked by the tool schema). */
  function GetAlerts(state: string, alerts: Option<AlertsResponse>): (r: Reply)
    requires |state| == 2
    ensures r.requests == [NwsGet(NWS_API_BASE + "/alerts?area=" + ToUpperCase(state))]
    ensures r.result.Text?
    ensures alerts.None? ==> r.result.text == "Failed to retrieve alerts data"
    ensures alerts.Some? && !HasItems(alerts.value.features) ==>
              r.result.text == "No active alerts for " + ToUpperCase(state)
    ensures alerts.Some? && HasItems(alerts.value.features) ==>
              r.result.text == AlertsText(ToUpperCase(state), alerts.value.features.value)
  {
    var stateCode := ToUpperCase(state);
    var request := NwsGet(AlertsUrl(state));
    if alerts.None? then
      Reply([request], Text("Failed to retrieve alerts data"))
    else
      var features := if alerts.value.features.Some? then alerts.value.features.value else [];
      if |features| == 0 then
        Reply([request], Text("No active alerts for " + stateCode))
      else
        Reply([request], Text(AlertsText(stateCode, features)))
  }

  /** State codes that differ only in letter case give the same tool call. */
  lemma GetAlertsIgnoresCase(a: string, b: string, alerts: Option<AlertsResponse>)
    requires |a| == 2 && |b| == 2
    requires EqualIgnoringCase(a, b)
    ensures GetAlerts(a, alerts) == GetAlerts(b, alerts)
  {
    ToUpperCaseEqual(a, b);
  }

  /** The alerts listing is a header line, an empty line, then the six lines
      of each alert in the order of the features. */
  lemma AlertsListing(code: string, features: seq<AlertFeature>)
    requires '\n' !in code
    requires |features| > 0
    requires forall i :: 0 <= i < |features| ==> AlertFieldsSingleLine(features[i])
    ensures var lines := SplitLines(AlertsText(code, features));
      && |lines| == 2 + 6 * |features|
      && lines[0] == "Active alerts for " + code + ":"
      && lines[1] == ""
      && lines[2..] == Flatten(AlertBlocks(features))
  {
    var header := AlertsHeader(code);
    assert '\n' !in header;
    var lines := SplitLines(AlertsText(code, features));
    assert lines == [header, ""] + Flatten(AlertBlocks(features)) && |lines| == 2 + 6 * |features| by {
      AlertBlocksLines(features);
      ListingLines(header, FormatAlerts(features), 6);
    }
  }

  /** The field lines of each alert, in feature order. */
  function AlertBlocks(features: seq<AlertFeature>): seq<seq<string>>
  {
    seq(|features|, i requires 0 <= i < |features| => AlertFieldLines(features[i]))
  }

  lemma AlertBlocksLines(features: seq<AlertFeature>)
    requires forall i :: 0 <= i < |features| ==> AlertFieldsSingleLine(features[i])
    ensures forall i :: 0 <= i < |features| ==> |SplitLines(FormatAlerts(features)[i])| == 6
    ensures SplitEach(FormatAlerts(features))
         == AlertBlocks(features)
  {
    forall i | 0 <= i < |features|
      ensures SplitLines(FormatAlerts(features)[i]) == AlertFieldLines(features[i])
      ensures |AlertFieldLines(features[i])| == 6
    {
    }
  }

  /** The lines of `header:\n\n` followed by newline-joined blocks. */
  lemma ListingLines(header: string, blocks: seq<string>, n: nat)
    requires '\n' !in header
    requires |blocks| > 0
    requires forall i :: 0 <= i < |blocks| ==> |SplitLines(blocks[i])| == n
    ensures var lines := SplitLines(header + "\n\n" + Join(blocks, "\n"));
      && lines == [header, ""] + Flatten(SplitEach(blocks))
      && |lines| == 2 + n * |blocks|
  {
    ListingHead(header, Join(blocks, "\n"));
    SplitJoin(blocks);
    FlattenLength(SplitEach(blocks), n);
  }

  /** A header line and an empty line in front of a text add those two lines. */
  lemma ListingHead(header: string, body: string)
    requires '\n' !in header
    ensures SplitLines(header + "\n\n" + body) == [header, ""] + SplitLines(body)
  {
    assert header + "\n\n" + body == header + "\n" + ("" + "\n" + body);
    SplitAppend(header, "" + "\n" + body);
    SplitAppend("", body);
    SplitSingleLine(header);
  }

  // ---------------------------------------------------------------------
  // get-forecast

  /** The grid-point reply: its `properties?.forecast` URL, if any. */
  datatype PointsResponse = PointsResponse(forecast: Option<string>)

  /** The forecast reply: its `properties?.periods` array, if any. */
  datatype ForecastResponse = ForecastResponse(periods: Option<seq<Period>>)

  const US_ONLY_NOTE: string :=
    ". This location may not be supported by the NWS API (only US locations are supported)."

  /** The text when the grid-point request fails: it names both coordinates
      as given and ends with the note that only US locations are supported. */
  function GridFailureText(latitude: JsNumber, longitude: JsNumber): (text: string)
    ensures Contains(text, latitude.text) && Contains(text, longitude.text)
    ensures EndsWith(text, US_ONLY_NOTE)
  {
    var lead := "Failed to retrieve grid point data for coordinates: ";
    var text := lead + latitude.text + ", " + longitude.text + US_ONLY_NOTE;
    assert OccursAt(text, latitude.text, |lead|);
    assert OccursAt(text, longitude.text, |lead| + |latitude.text| + 2);
    text
  }

  /** `part` occurs in `s` starting at position i. */
  predicate OccursAt(s: string, part: string, i: int)
  {
    0 <= i && i + |part| <= |s| && s[i..i + |part|] == part
  }

  /** `part` occurs somewhere in `s`. */
  predicate Contains(s: string, part: string)
  {
    exists i :: 0 <= i <= |s| && OccursAt(s, part, i)
  }

  predicate EndsWith(s: string, suffix: string)
  {
    |suffix| <= |s| && s[|s| - |suffix|..] == suffix
  }

  /** The text listing the forecast periods. */
  function ForecastText(latitude: JsNumber, longitude: JsNumber, periods: seq<Period>): string
  {
    ForecastHeader(latitude, longitude) + "\n\n" + Join(FormatPeriods(periods), "\n")
  }

  function ForecastHeader(latitude: JsNumber, longitude: JsNumber): string
  {
    "Forecast for " + latitude.text + ", " + longitude.text + ":"
  }

  /** Whether the grid-point request succeeded with a forecast URL, the
      condition for the second request. */
  predicate HasForecastUrl(points: Option<PointsResponse>)
  {
    points.Some? && StringTruthy(points.value.forecast)
  }

  /** `get-forecast`: a grid-point request, then, only when it yields a
      forecast URL, a request for that URL; each of the four ways to fail
      has its own text. The coordinates are within range (checked by the
      tool schema). */
  function GetForecast(latitude: JsNumber, longitude: JsNumber,
                       points: Option<PointsResponse>, forecast: Option<ForecastResponse>): (r: Reply)
    requires -90.0 <= latitude.value <= 90.0 && -180.0 <= longitude.value <= 180.0
    ensures 1 <= |r.requests| <= 2
    ensures r.requests[0] == NwsPoints(latitude.value, longitude.value)
    ensures |r.requests| == 2 <==> HasForecastUrl(points)
    ensures |r.requests| == 2 ==> r.requests[1] == NwsGet(points.value.forecast.value)
    ensures r.result.Text?
    ensures points.None? ==> r.result.text == GridFailureText(latitude, longitude)
    ensures points.Some? && !HasForecastUrl(points) ==>
              r.result.text == "Failed to get forecast URL from grid point data"
    ensures HasForecastUrl(points) && forecast.None? ==>
              r.result.text == "Failed to retrieve forecast data"
    ensures HasForecastUrl(points) && forecast.Some? && !HasItems(forecast.value.periods) ==>
              r.result.text == "No forecast periods available"
    ensures HasForecastUrl(points) && forecast.Some? && HasItems(forecast.value.periods) ==>
              r.result.text == ForecastText(latitude, longitude, forecast.value.periods.value)
  {
    var pointsRequest := NwsPoints(latitude.value, longitude.value);
    if points.None? then
      Reply([pointsRequest], Text(GridFailureText(latitude, longitude)))
    else if !StringTruthy(points.value.forecast) then
      Reply([pointsRequest], Text("Failed to get forecast URL from grid point data"))
    else
      var requests := [pointsRequest, NwsGet(points.value.forecast.value)];
      if forecast.None? then
        Reply(requests, Text("Failed to retrieve forecast data"))
      else
        var periods := if forecast.value.periods.Some? then forecast.value.periods.value else [];
        if |periods| == 0 then
          Reply(requests, Text("No forecast periods available"))
        else
          Reply(requests, Text(ForecastText(latitude, longitude, periods)))
  }

  /** Without a forecast URL the forecast reply plays no part: the second
      request is never made. */
  lemma ForecastNeedsGridPoint(latitude: JsNumber, longitude: JsNumber, points: Option<PointsResponse>,
                               forecast1: Option<ForecastResponse>, forecast2: Option<ForecastResponse>)
    requires -90.0 <= latitude.value <= 90.0 && -180.0 <= longitude.value <= 180.0
    requires !HasForecastUrl(points)
    ensures GetForecast(latitude, longitude, points, forecast1) == GetForecast(latitude, longitude, points, forecast2)
    ensures |GetForecast(latitude, longitude, points, forecast1).requests| == 1
  {
  }

  /** The forecast listing is a header line, an empty line, then the five
      lines of each period in the order of the periods. */
  lemma ForecastListing(latitude: JsNumber, longitude: JsNumber, periods: seq<Period>)
    requires '\n' !in latitude.text && '\n' !in longitude.text
    requires |periods| > 0
    requires forall i :: 0 <= i < |periods| ==> PeriodFieldsSingleLine(periods[i])
    ensures var lines := SplitLines(ForecastText(latitude, longitude, periods));
      && |lines| == 2 + 5 * |periods|
      && lines[0] == "Forecast for " + latitude.text + ", " + longitude.text + ":"
      && lines[1] == ""
      && lines[2..] == Flatten(PeriodBlocks(periods))
  {
    var header := ForecastHeader(latitude, longitude);
    assert '\n' !in header;
    var lines := SplitLines(ForecastText(latitude, longitude, periods));
    assert lines == [header, ""] + Flatten(PeriodBlocks(periods)) && |lines| == 2 + 5 * |periods| by {
      PeriodBlocksLines(periods);
      ListingLines(header, FormatPeriods(periods), 5);
    }
  }

  /** The field lines of each period, in order. */
  function PeriodBlocks(periods: seq<Period>): seq<seq<string>>
  {
    seq(|periods|, i requires 0 <= i < |periods| => PeriodFieldLines(periods[i]))
  }

  lemma PeriodBlocksLines(periods: seq<Period>)
    requires forall i :: 0 <= i < |periods| ==> PeriodFieldsSingleLine(periods[i])
    ensures forall i :: 0 <= i < |periods| ==> |SplitLines(FormatPeriods(periods)[i])| == 5
    ensures SplitEach(FormatPeriods(periods))
         == PeriodBlocks(periods)
  {
    forall i | 0 <= i < |periods|
      ensures SplitLines(FormatPeriods(periods)[i]) == PeriodFieldLines(periods[i])
      ensures |PeriodFieldLines(periods[i])| == 5
    {
    }
  }

  // ---------------------------------------------------------------------
  // get-current-weather

  /** One match of the geocoding endpoint. */
  datatype Location = Location(lat: JsNumber, lon: JsNumber)

  /** The fields of the current-conditions reply the summary prints:
      `name`, `sys.country`, `main.temp`, `main.feels_like`, the
      descriptions of the `weather` array, `main.humidity`, `main.pressure`,
      `wind.speed`, `wind.deg` and `visibility` (in metres). */
  datatype CurrentConditions = CurrentConditions(
    name: string,
    country: string,
    temp: real,
    feelsLike: real,
    descriptions: seq<string>,
    humidity: int,
    pressure: int,
    windSpeed: JsNumber,
    windDeg: Option<int>,
    visibility: Option<int>)

  /** The geocoding query `q`: the city, followed by `,country` when a
      country is given. */
  function GeocodeQuery(city: string, country: Option<string>): (q: string)
    ensures |city| <= |q| && q[..|city|] == city
    ensures q == city <==> !StringTruthy(country)
  {
    if StringTruthy(country) then city + "," + country.value else city
  }

  /** The geocoding parameters, built as the handler builds them: `q` starts
      as the city and has `,country` appended in place when a country is
      given. */
  method GeocodeParams(city: string, country: Option<string>) returns (params: seq<Param>)
    ensures params == [("q", GeocodeQuery(city, country))]
  {
    var q := city;
    if StringTruthy(country) {
      q := q + "," + country.value;
    }
    params := [("q", q)];
  }

  /** For a city name without a comma, the query can be taken apart again:
      the city is everything before the first comma, and the country, when
      one was given, everything after it. */
  lemma GeocodeQuerySplits(city: string, country: Option<string>)
    requires ',' !in city
    ensures var q := GeocodeQuery(city, country);
      && |city| <= |q| && q[..|city|] == city
      && (StringTruthy(country) <==> ',' in q)
      && (StringTruthy(country) ==> q[|city|] == ',' && q[|city| + 1..] == country.value)
  {
  }

  /** The text when the city cannot be located: the city, then the country
      only when one is given. */
  function NotFoundText(city: string, country: Option<string>): (text: string)
    ensures StartsWith(text, "Could not find coordinates for " + city)
    ensures !StringTruthy(country) ==> text == "Could not find coordinates for " + city
    ensures StringTruthy(country) ==> EndsWith(text, ", " + country.value)
  {
    "Could not find coordinates for " + city + (if StringTruthy(country) then ", " + country.value else "")
  }

  predicate StartsWith(line: string, prefix: string)
  {
    |prefix| <= |line| && line[..|prefix|] == prefix
  }

  /** No text field the summary prints carries a line break of its own. */
  predicate SummaryFieldsSingleLine(c: CurrentConditions)
    requires |c.descriptions| > 0
  {
    '\n' !in c.name && '\n' !in c.country && '\n' !in c.descriptions[0] && '\n' !in c.windSpeed.text
  }

  /** The summary lines; the visibility line is pushed only when the
      visibility is present and not zero. */
  function SummaryLines(c: CurrentConditions): (lines: seq<string>)
    requires |c.descriptions| > 0
    ensures (exists i :: 0 <= i < |lines| && StartsWith(lines[i], "Visibility: ")) <==> IntTruthy(c.visibility)
    ensures |lines| == if IntTruthy(c.visibility) then 8 else 7
    ensures SummaryFieldsSingleLine(c) ==> forall i :: 0 <= i < |lines| ==> '\n' !in lines[i]
  {
    var info := FixedSummaryLines(c);
    if IntTruthy(c.visibility) then
      var visibilityLine := VisibilityEntry(c.visibility.value);
      assert StartsWith((info + [visibilityLine])[7], "Visibility: ");
      info + [visibilityLine]
    else
      info
  }

  /** The summary lines, built as the handler builds them: the seven fixed
      lines, then a visibility line pushed onto the list when the visibility
      is present and not zero. */
  method BuildWeatherInfo(c: CurrentConditions) returns (weatherInfo: seq<string>)
    requires |c.descriptions| > 0
    ensures weatherInfo == SummaryLines(c)
  {
    weatherInfo := FixedSummaryLines(c);
    if IntTruthy(c.visibility) {
      weatherInfo := weatherInfo + [VisibilityEntry(c.visibility.value)];
    }
  }

  /** The visibility line for a visibility in metres, printed in kilometres. */
  function VisibilityEntry(metres: int): (line: string)
    ensures StartsWith(line, "Visibility: ") && '\n' !in line
  {
    "Visibility: " + ThousandthsToString(metres) + " km"
  }

  /** The seven summary lines that are always present. */
  function FixedSummaryLines(c: CurrentConditions): (info: seq<string>)
    requires |c.descriptions| > 0
    ensures |info| == 7
    ensures forall i :: 0 <= i < |info| ==> !StartsWith(info[i], "Visibility: ")
    ensures SummaryFieldsSingleLine(c) ==> forall i :: 0 <= i < |info| ==> '\n' !in info[i]
  {
    var info := [PlaceLine(c), "", TemperatureLine(c), ConditionsLine(c),
                 HumidityLine(c), PressureLine(c), WindLine(c)];
    assert forall i :: 0 <= i < |info| ==> info[i] == "" || info[i][0] != 'V';
    info
  }

  function PlaceLine(c: CurrentConditions): (line: string)
    ensures |line| > 0 && line[0] == 'C'
    ensures '\n' !in c.name && '\n' !in c.country ==> '\n' !in line
  {
    "Current weather in " + c.name + ", " + c.country + ":"
  }

  function TemperatureLine(c: CurrentConditions): (line: string)
    ensures |line| > 0 && line[0] == 'T' && '\n' !in line
  {
    var actual, feels := IntToString(Round(c.temp)), IntToString(Round(c.feelsLike));
    var head := "Temperature: ";
    var middle := "°C (feels like ";
    var tail := "°C)";
    assert '\n' !in head && '\n' !in middle && '\n' !in tail;
    NoNewlineConcat(head, actual);
    NoNewlineConcat(head + actual, middle);
    NoNewlineConcat(head + actual + middle, feels);
    NoNewlineConcat(head + actual + middle + feels, tail);
    head + actual + middle + feels + tail
  }

  function ConditionsLine(c: CurrentConditions): (line: string)
    requires |c.descriptions| > 0
    ensures |line| > 0 && line[0] == 'C'
    ensures '\n' !in c.descriptions[0] ==> '\n' !in line
  {
    "Conditions: " + c.descriptions[0]
  }

  function HumidityLine(c: CurrentConditions): (line: string)
    ensures |line| > 0 && line[0] == 'H' && '\n' !in line
  {
    "Humidity: " + IntToString(c.humidity) + "%"
  }

  function PressureLine(c: CurrentConditions): (line: string)
    ensures |line| > 0 && line[0] == 'P' && '\n' !in line
  {
    "Pressure: " + IntToString(c.pressure) + " hPa"
  }

  /** The wind line; the direction is printed only when present and not zero. */
  function WindLine(c: CurrentConditions): (line: string)
    ensures |line| > 0 && line[0] == 'W'
    ensures '\n' !in c.windSpeed.text ==> '\n' !in line
  {
    "Wind: " + c.windSpeed.text + " m/s"
    + (if IntTruthy(c.windDeg) then " from " + IntToString(c.windDeg.value) + "°" else "")
  }

  /** `get-current-weather`: a geocoding request for the city (none at all
      without an API key), then, only when it yields a location, a
      current-conditions request for the first location. */
  function GetCurrentWeather(apiKey: string, city: string, country: Option<string>,
                             geocode: Option<seq<Location>>, weather: Option<CurrentConditions>): (r: Reply)
    ensures |r.requests| <= 2
    ensures r.requests == [] <==> apiKey == ""
    ensures apiKey != "" ==> r.requests[0] == OpenWeatherGet(
              OPENWEATHER_API_BASE + "/geo/1.0/direct",
              [("appid", apiKey), ("units", "metric"),
               ("q", if StringTruthy(country) then city + "," + country.value else city)])
    ensures |r.requests| == 2 <==> apiKey != "" && HasItems(geocode)
    ensures |r.requests| == 2 ==> r.requests[1] == OpenWeatherGet(
              OPENWEATHER_API_BASE + "/weather",
              [("appid", apiKey), ("units", "metric"),
               ("lat", geocode.value[0].lat.text), ("lon", geocode.value[0].lon.text)])
    ensures |r.requests| < 2 ==> r.result == Text(NotFoundText(city, country))
    ensures |r.requests| == 2 && weather.None? ==>
              r.result == Text("Failed to retrieve current weather data")
    ensures |r.requests| == 2 && weather.Some? && |weather.value.descriptions| > 0 ==>
              r.result == Text(Join(SummaryLines(weather.value), "\n"))
    ensures r.result.Rejected? <==> |r.requests| == 2 && weather.Some? && |weather.value.descriptions| == 0
  {
    var query := [("q", GeocodeQuery(city, country))];
    var geocodeRequest := OpenWeatherRequest(apiKey, "geo/1.0/direct", query);
    if geocodeRequest.None? then
      Reply([], Text(NotFoundText(city, country)))
    else
      assert geocodeRequest.value == OpenWeatherGet(
        OPENWEATHER_API_BASE + "/geo/1.0/direct", [("appid", apiKey), ("units", "metric")] + query);
      if !HasItems(geocode) then
        Reply([geocodeRequest.value], Text(NotFoundText(city, country)))
      else
        var location := geocode.value[0];
        var coordinates := [("lat", location.lat.text), ("lon", location.lon.text)];
        var weatherRequest := OpenWeatherRequest(apiKey, "weather", coordinates);
        assert weatherRequest.value == OpenWeatherGet(
          OPENWEATHER_API_BASE + "/weather", [("appid", apiKey), ("units", "metric")] + coordinates);
        var requests := [geocodeRequest.value, weatherRequest.value];
        if weather.None? then
          Reply(requests, Text("Failed to retrieve current weather data"))
        else if |weather.value.descriptions| == 0 then
          Reply(requests, Rejected("TypeError: Cannot read properties of undefined (reading 'description')"))
        else
          Reply(requests, Text(Join(SummaryLines(weather.value), "\n")))
  }

  /** Only the first geocoding match is used. */
  lemma FirstMatchOnly(apiKey: string, city: string, country: Option<string>, first: Location,
                       rest1: seq<Location>, rest2: seq<Location>, weather: Option<CurrentConditions>)
    ensures GetCurrentWeather(apiKey, city, country, Some([first] + rest1), weather)
         == GetCurrentWeather(apiKey, city, country, Some([first] + rest2), weather)
  {
  }

  /** Without a located city the conditions reply plays no part: the second
      request is never made. */
  lemma WeatherNeedsLocation(apiKey: string, city: string, country: Option<string>, geocode: Option<seq<Location>>,
                             weather1: Option<CurrentConditions>, weather2: Option<CurrentConditions>)
    requires apiKey == "" || !HasItems(geocode)
    ensures GetCurrentWeather(apiKey, city, country, geocode, weather1)
         == GetCurrentWeather(apiKey, city, country, geocode, weather2)
  {
  }

  /** When the summary's text fields are single-line, the summary text has
      a line starting with `Visibility: ` exactly when the visibility is
      present and not zero. */
  lemma VisibilityLine(apiKey: string, city: string, country: Option<string>,
                       geocode: Option<seq<Location>>, c: CurrentConditions)
    requires apiKey != "" && HasItems(geocode)
    requires |c.descriptions| > 0
    requires SummaryFieldsSingleLine(c)
    ensures var r := GetCurrentWeather(apiKey, city, country, geocode, Some(c));
      && r.result.Text?
      && var lines := SplitLines(r.result.text);
      && (exists i :: 0 <= i < |lines| && StartsWith(lines[i], "Visibility: ")) <==> IntTruthy(c.visibility)
  {
    SummaryLinesSplit(c);
  }

  /** The summary text splits back into the summary lines. */
  lemma SummaryLinesSplit(c: CurrentConditions)
    requires |c.descriptions| > 0
    requires SummaryFieldsSingleLine(c)
    ensures SplitLines(Join(SummaryLines(c), "\n")) == SummaryLines(c)
  {
    SplitJoinLines(SummaryLines(c));
  }
}
