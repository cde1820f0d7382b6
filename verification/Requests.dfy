/** The outbound requests of the weather server. A request is described by
    what it asks for; issuing it and parsing the reply is I/O and is not
    modelled (the reply is an input of the handlers instead). */
module Requests {
  import opened Js

  const NWS_API_BASE: string := "https://api.weather.gov"
  const OPENWEATHER_API_BASE: string := "https://api.openweathermap.org/data/2.5"

  /** A query parameter of the commercial weather API: name and value. */
  type Param = (string, string)

  datatype Request =
    /** `makeNWSRequest(url)` for a URL known as text. */
    | NwsGet(url: string)
    /** `makeNWSRequest` on the grid-point URL of a coordinate pair (the
        4-decimal rendering of the coordinates is not modelled). */
    | NwsPoints(latitude: real, longitude: real)
    /** A GET on `url` with the query parameters in this order. */
    | OpenWeatherGet(url: string, query: seq<Param>)

  /** The alerts URL for a state code; the code is upper-cased first. */
  function AlertsUrl(state: string): string
  {
    NWS_API_BASE + "/alerts?area=" + ToUpperCase(state)
  }

  /** Two state codes give the same alerts URL exactly when they differ only
      in the case of their letters. */
  lemma AlertsUrlIgnoresCase(a: string, b: string)
    ensures AlertsUrl(a) == AlertsUrl(b) <==> EqualIgnoringCase(a, b)
  {
    var prefix := NWS_API_BASE + "/alerts?area=";
    ToUpperCaseEqual(a, b);
    if AlertsUrl(a) == AlertsUrl(b) {
      assert ToUpperCase(a) == AlertsUrl(a)[|prefix|..];
      assert ToUpperCase(b) == AlertsUrl(b)[|prefix|..];
    }
  }

  /** Upper-casing a code before asking changes nothing. */
  lemma AlertsUrlNormalized(state: string)
    ensures AlertsUrl(ToUpperCase(state)) == AlertsUrl(state)
  {
    ToUpperCaseIdempotent(state);
  }

  /** The request `makeOpenWeatherRequest(endpoint, params)` sends: none at
      all without an API key; otherwise the key, metric units, then the
      caller's parameters. */
  function OpenWeatherRequest(apiKey: string, endpoint: string, params: seq<Param>): (r: Option<Request>)
    ensures r.None? <==> apiKey == ""
    ensures r.Some? ==>
              && r.value.OpenWeatherGet?
              && r.value.url == OPENWEATHER_API_BASE + "/" + endpoint
              && |r.value.query| == |params| + 2
              && r.value.query[0] == ("appid", apiKey)
              && r.value.query[1] == ("units", "metric")
              && r.value.query[2..] == params
  {
    if apiKey == "" then None
    else Some(OpenWeatherGet(OPENWEATHER_API_BASE + "/" + endpoint,
                             [("appid", apiKey), ("units", "metric")] + params))
  }

  /** The `searchParams` of a URL object: an ordered list of name/value
      pairs that `append` extends at the end. */
  class SearchParams {
    var entries: seq<Param>

    constructor ()
      ensures entries == []
    {
      entries := [];
    }

    method Append(name: string, value: string)
      modifies this
      ensures entries == old(entries) + [(name, value)]
    {
      entries := entries + [(name, value)];
    }
  }

  /** The URL building of `makeOpenWeatherRequest`: with an empty API key no
      URL is built; otherwise `appid` and `units=metric` are appended, then
      every caller parameter in order. */
  method MakeOpenWeatherRequest(apiKey: string, endpoint: string, params: seq<Param>)
    returns (request: Option<Request>)
    ensures request.None? <==> apiKey == ""
    ensures request.Some? ==>
              && request.value.OpenWeatherGet?
              && request.value.url == OPENWEATHER_API_BASE + "/" + endpoint
              && |request.value.query| == |params| + 2
              && request.value.query[0] == ("appid", apiKey)
              && request.value.query[1] == ("units", "metric")
              && request.value.query[2..] == params
    ensures request == OpenWeatherRequest(apiKey, endpoint, params)
  {
    if apiKey == "" {
      return None;
    }
    var searchParams := new SearchParams();
    searchParams.Append("appid", apiKey);
    searchParams.Append("units", "metric");
    var i := 0;
    while i < |params|
      invariant 0 <= i <= |params|
      invariant searchParams.entries == [("appid", apiKey), ("units", "metric")] + params[..i]
    {
      searchParams.Append(params[i].0, params[i].1);
      i := i + 1;
    }
    assert params[..i] == params;
    request := Some(OpenWeatherGet(OPENWEATHER_API_BASE + "/" + endpoint, searchParams.entries));
  }
}
