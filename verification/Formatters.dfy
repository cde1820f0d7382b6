/** The two text formatters of the weather server: one alert feature of the
    National Weather Service alerts endpoint, and one period of a forecast.
    Every field may be missing and has its own default. */
module Formatters {
  import opened Js
  import opened Lines

  /** The `properties` object of one alert feature. */
  datatype AlertProperties = AlertProperties(
    event: Option<string>,
    areaDesc: Option<string>,
    severity: Option<string>,
    status: Option<string>,
    headline: Option<string>)

  /** One element of the `features` array of an alerts response. */
  datatype AlertFeature = AlertFeature(properties: AlertProperties)

  /** One element of the `properties.periods` array of a forecast response. */
  datatype Period = Period(
    name: Option<string>,
    temperature: Option<int>,
    temperatureUnit: Option<string>,
    windSpeed: Option<string>,
    windDirection: Option<string>,
    shortForecast: Option<string>)

  // ---------------------------------------------------------------------
  // formatAlert

  /** The six lines of an alert block, in order. */
  function AlertFieldLines(feature: AlertFeature): seq<string>
  {
    var p := feature.properties;
    [ "Event: " + OrElse(p.event, "Unknown"),
      "Area: " + OrElse(p.areaDesc, "Unknown"),
      "Severity: " + OrElse(p.severity, "Unknown"),
      "Status: " + OrElse(p.status, "Unknown"),
      "Headline: " + OrElse(p.headline, "No headline"),
      "---" ]
  }

  /** `formatAlert`: the alert block, its lines joined by newlines. When no
      field carries a line break of its own, the block splits back into
      exactly its field lines. */
  function FormatAlert(feature: AlertFeature): (text: string)
    ensures AlertFieldsSingleLine(feature) ==> SplitLines(text) == AlertFieldLines(feature)
  {
    var lines := AlertFieldLines(feature);
    var text := Join(lines, "\n");
    assert AlertFieldsSingleLine(feature) ==> SplitLines(text) == lines by {
      if AlertFieldsSingleLine(feature) {
        AlertFieldLinesSingle(feature);
        SplitJoinLines(lines);
      }
    }
    text
  }

  lemma AlertFieldLinesSingle(feature: AlertFeature)
    requires AlertFieldsSingleLine(feature)
    ensures forall i :: 0 <= i < 6 ==> '\n' !in AlertFieldLines(feature)[i]
  {
    var p := feature.properties;
    LabelledNoNewline("Event: ", p.event, "Unknown");
    LabelledNoNewline("Area: ", p.areaDesc, "Unknown");
    LabelledNoNewline("Severity: ", p.severity, "Unknown");
    LabelledNoNewline("Status: ", p.status, "Unknown");
    LabelledNoNewline("Headline: ", p.headline, "No headline");
  }

  /** A label followed by a single-line field is one line. */
  lemma LabelledNoNewline(caption: string, s: Option<string>, fallback: string)
    requires '\n' !in caption && NoNewline(s) && '\n' !in fallback
    ensures '\n' !in caption + OrElse(s, fallback)
  {
    OrElseNoNewline(s, fallback);
    NoNewlineConcat(caption, OrElse(s, fallback));
  }

  /** No field of the alert carries a line break of its own. */
  predicate AlertFieldsSingleLine(feature: AlertFeature)
  {
    var p := feature.properties;
    NoNewline(p.event) && NoNewline(p.areaDesc) && NoNewline(p.severity)
    && NoNewline(p.status) && NoNewline(p.headline)
  }

  /** The lines an alert block consists of. */
  function AlertLines(feature: AlertFeature): seq<string>
  {
    SplitLines(FormatAlert(feature))
  }

  /** An alert block has exactly six lines in the fixed order; each field is
      printed verbatim when it is a non-empty string and replaced by its own
      default otherwise; the last line is `---`. */
  lemma AlertBlock(feature: AlertFeature)
    requires AlertFieldsSingleLine(feature)
    ensures var lines := AlertLines(feature); var p := feature.properties;
      && |lines| == 6
      && lines[0] == "Event: " + (if StringTruthy(p.event) then p.event.value else "Unknown")
      && lines[1] == "Area: " + (if StringTruthy(p.areaDesc) then p.areaDesc.value else "Unknown")
      && lines[2] == "Severity: " + (if StringTruthy(p.severity) then p.severity.value else "Unknown")
      && lines[3] == "Status: " + (if StringTruthy(p.status) then p.status.value else "Unknown")
      && lines[4] == "Headline: " + (if StringTruthy(p.headline) then p.headline.value else "No headline")
      && lines[5] == "---"
  {
    assert AlertLines(feature) == AlertFieldLines(feature);
  }


  /** `features.map(formatAlert)`. */
  function FormatAlerts(features: seq<AlertFeature>): seq<string>
  {
    seq(|features|, i requires 0 <= i < |features| => FormatAlert(features[i]))
  }

  // ---------------------------------------------------------------------
  // The forecast-period formatter

  /** `${period.temperature || "Unknown"}`: a zero or missing temperature
      prints as `Unknown`; otherwise the printed text reads back as the
      temperature. */
  function TemperatureText(t: Option<int>): (r: string)
    ensures !IntTruthy(t) <==> r == "Unknown"
    ensures IntTruthy(t) ==> IsIntText(r) && ParseInt(r) == t.value
  {
    if IntTruthy(t) then
      IntToStringRoundTrip(t.value);
      IntToString(t.value)
    else "Unknown"
  }

  /** The five lines of a period block, in order. */
  function PeriodFieldLines(period: Period): seq<string>
  {
    [ OrElse(period.name, "Unknown") + ":",
      "Temperature: " + TemperatureText(period.temperature) + "°" + OrElse(period.temperatureUnit, "F"),
      "Wind: " + OrElse(period.windSpeed, "Unknown") + " " + OrElse(period.windDirection, ""),
      OrElse(period.shortForecast, "No forecast available"),
      "---" ]
  }

  /** The period block, its lines joined by newlines. When no string field
      carries a line break of its own, the block splits back into exactly its
      field lines. */
  function FormatPeriod(period: Period): (text: string)
    ensures PeriodFieldsSingleLine(period) ==> SplitLines(text) == PeriodFieldLines(period)
  {
    var lines := PeriodFieldLines(period);
    var text := Join(lines, "\n");
    assert PeriodFieldsSingleLine(period) ==> SplitLines(text) == lines by {
      if PeriodFieldsSingleLine(period) {
        PeriodFieldLinesSingle(period);
        SplitJoinLines(lines);
      }
    }
    text
  }

  lemma PeriodFieldLinesSingle(period: Period)
    requires PeriodFieldsSingleLine(period)
    ensures forall i :: 0 <= i < 5 ==> '\n' !in PeriodFieldLines(period)[i]
  {
    var name := OrElse(period.name, "Unknown");
    OrElseNoNewline(period.name, "Unknown");
    NoNewlineConcat(name, ":");
    var temperature := TemperatureText(period.temperature);
    assert '\n' !in temperature by {
      if IntTruthy(period.temperature) {
        assert temperature == IntToString(period.temperature.value);
      }
    }
    NoNewlineConcat("Temperature: ", temperature);
    NoNewlineConcat("Temperature: " + temperature, "°");
    LabelledNoNewline("Temperature: " + temperature + "°", period.temperatureUnit, "F");
    var speed := OrElse(period.windSpeed, "Unknown");
    LabelledNoNewline("Wind: ", period.windSpeed, "Unknown");
    NoNewlineConcat("Wind: " + speed, " ");
    LabelledNoNewline("Wind: " + speed + " ", period.windDirection, "");
    OrElseNoNewline(period.shortForecast, "No forecast available");
  }

  /** No string field of the period carries a line break of its own. */
  predicate PeriodFieldsSingleLine(period: Period)
  {
    NoNewline(period.name) && NoNewline(period.temperatureUnit) && NoNewline(period.windSpeed)
    && NoNewline(period.windDirection) && NoNewline(period.shortForecast)
  }

  /** The lines a period block consists of. */
  function PeriodLines(period: Period): seq<string>
  {
    SplitLines(FormatPeriod(period))
  }

  /** A period block has exactly five lines; each field is printed verbatim
      when truthy and replaced by its own default otherwise (a temperature of
      0 counts as missing); the last line is `---`. */
  lemma PeriodBlock(period: Period)
    requires PeriodFieldsSingleLine(period)
    ensures var lines := PeriodLines(period);
      && |lines| == 5
      && lines[0] == (if StringTruthy(period.name) then period.name.value else "Unknown") + ":"
      && lines[1] == "Temperature: "
           + (if IntTruthy(period.temperature) then IntToString(period.temperature.value) else "Unknown")
           + "°" + (if StringTruthy(period.temperatureUnit) then period.temperatureUnit.value else "F")
      && lines[2] == "Wind: " + (if StringTruthy(period.windSpeed) then period.windSpeed.value else "Unknown")
           + " " + (if StringTruthy(period.windDirection) then period.windDirection.value else "")
      && lines[3] == (if StringTruthy(period.shortForecast) then period.shortForecast.value else "No forecast available")
      && lines[4] == "---"
  {
    assert PeriodLines(period) == PeriodFieldLines(period);
  }


  /** `periods.map(period => ...)`. */
  function FormatPeriods(periods: seq<Period>): seq<string>
  {
    seq(|periods|, i requires 0 <= i < |periods| => FormatPeriod(periods[i]))
  }
}
