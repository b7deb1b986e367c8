/** Coordinate defaulting and the two upstream URLs of handleRequest
    (worker.js:2, 44-48). The coordinates are inserted into the URLs as
    given, without encoding. */
module Upstream {
  import opened Wrappers
  import opened QueryString

  const ApiUrl := "https://api.open-meteo.com/v1/forecast"

  /** Iași. */
  const DefaultLat := "47.156944"
  const DefaultLon := "27.590278"

  const Timezone := "Europe%2FBucharest"

  /** The daily metrics requested, as one comma-separated list. */
  const DailyMetrics := "precipitation_probability_mean" + "," + "temperature_2m_max" + ","
    + "temperature_2m_min" + "," + "sunset" + "," + "sunrise"

  /** `searchParams.get(name) || default`: an absent parameter (None) and
      the empty string both give way to the default. */
  function Coordinate(param: Option<string>, default: string): (c: string)
    ensures param.None? || param.value == "" ==> c == default
    ensures param.Some? && param.value != "" ==> c == param.value
  {
    match param
    case None => default
    case Some(s) => if s == "" then default else s
  }

  /** The parameters the current-weather request is meant to carry. */
  function CurrentWeatherQuery(lat: string, lon: string): seq<Param> {
    [("latitude", lat), ("longitude", lon), ("current_weather", "true"), ("timezone", Timezone)]
  }

  /** The parameters the daily-forecast request is meant to carry. */
  function DailyWeatherQuery(lat: string, lon: string): seq<Param> {
    [("latitude", lat), ("longitude", lon), ("daily", DailyMetrics), ("timezone", Timezone)]
  }

  /** The resolved coordinate is never empty. */
  lemma CoordinateNonEmpty(param: Option<string>, default: string)
    requires default != ""
    ensures Coordinate(param, default) != ""
  {
  }

  /** Four parameters joined. */
  lemma JoinFour(a: Param, b: Param, c: Param, d: Param)
    ensures Join([a, b, c, d]) == Pair(a) + "&" + Pair(b) + "&" + Pair(c) + "&" + Pair(d)
  {
    var ps := [a, b, c, d];
    assert ps[1..] == [b, c, d] && ps[2..] == [c, d] && ps[3..] == [d];
    assert Join([d]) == Pair(d);
    assert Join([c, d]) == Pair(c) + "&" + Pair(d);
    assert Join([b, c, d]) == Pair(b) + "&" + (Pair(c) + "&" + Pair(d));
  }

  /** The current-weather URL (worker.js:47). Whatever the coordinates, it
      is the API URL with the joined current-weather parameters as its
      query. */
  function CurrentWeatherUrl(lat: string, lon: string): (u: string)
    ensures u == ApiUrl + "?" + Join(CurrentWeatherQuery(lat, lon))
  {
    CurrentWeatherTemplate(lat, lon);
    ApiUrl + "?latitude=" + lat + "&longitude=" + lon + "&current_weather=true&timezone=" + Timezone
  }

  /** The daily-forecast URL (worker.js:48). Whatever the coordinates, it is
      the API URL with the joined daily parameters as its query. */
  function DailyWeatherUrl(lat: string, lon: string): (u: string)
    ensures u == ApiUrl + "?" + Join(DailyWeatherQuery(lat, lon))
  {
    DailyWeatherTemplate(lat, lon);
    ApiUrl + "?latitude=" + lat + "&longitude=" + lon + "&daily=" + DailyMetrics + "&timezone=" + Timezone
  }

  /** The template of worker.js:47 is the API URL, '?', and the four
      current-weather parameters joined. */
  lemma CurrentWeatherTemplate(lat: string, lon: string)
    ensures ApiUrl + "?latitude=" + lat + "&longitude=" + lon + "&current_weather=true&timezone=" + Timezone
         == ApiUrl + "?" + Join(CurrentWeatherQuery(lat, lon))
  {
    JoinFour(("latitude", lat), ("longitude", lon), ("current_weather", "true"), ("timezone", Timezone));
    CoordinateKeys();
    CurrentWeatherFlag();
  }

  /** The template of worker.js:48 is the API URL, '?', and the four daily
      parameters joined. */
  lemma DailyWeatherTemplate(lat: string, lon: string)
    ensures ApiUrl + "?latitude=" + lat + "&longitude=" + lon + "&daily=" + DailyMetrics + "&timezone=" + Timezone
         == ApiUrl + "?" + Join(DailyWeatherQuery(lat, lon))
  {
    JoinFour(("latitude", lat), ("longitude", lon), ("daily", DailyMetrics), ("timezone", Timezone));
    CoordinateKeys();
    DailyKeys();
  }

  /** The literal pieces of the URL templates, cut at the key/value and
      parameter separators. Each is its own lemma: stated inside the URL
      functions, these literal comparisons exhaust the solver's budget. */
  lemma CoordinateKeys()
    ensures "?latitude=" == "?" + "latitude" + "="
    ensures "&longitude=" == "&" + "longitude" + "="
  {
  }

  lemma CurrentWeatherFlag()
    ensures "&current_weather=true&timezone=" == "&" + ("current_weather" + "=" + "true") + "&" + "timezone" + "="
  {
  }

  lemma DailyKeys()
    ensures "&daily=" == "&" + "daily" + "="
    ensures "&timezone=" == "&" + "timezone" + "="
  {
  }

  /** The fixed parts of both URLs hold no separator. */
  lemma FixedPartsPlain()
    ensures '?' !in ApiUrl
    ensures '&' !in DailyMetrics && '&' !in Timezone
  {
    assert '&' !in "precipitation_probability_mean";
    assert '&' !in "temperature_2m_max" && '&' !in "temperature_2m_min";
  }

  /** With coordinates free of '&', both parameter lists survive a round
      trip through the query reader. */
  lemma QueriesPlain(lat: string, lon: string)
    requires '&' !in lat && '&' !in lon
    ensures Plain(CurrentWeatherQuery(lat, lon)) && Plain(DailyWeatherQuery(lat, lon))
  {
    FixedPartsPlain();
    assert '=' !in "latitude" && '&' !in "latitude" && '=' !in "longitude" && '&' !in "longitude";
    assert '=' !in "timezone" && '&' !in "timezone" && '=' !in "daily" && '&' !in "daily";
    assert '=' !in "current_weather" && '&' !in "current_weather" && '&' !in "true";
  }

  /** Coordinates without '&' are read back verbatim from the current-weather
      URL, beside the fixed flag and time zone. */
  lemma CurrentWeatherUrlParams(lat: string, lon: string)
    requires '&' !in lat && '&' !in lon
    ensures Params(QueryOf(CurrentWeatherUrl(lat, lon))) == CurrentWeatherQuery(lat, lon)
  {
    FixedPartsPlain();
    QueriesPlain(lat, lon);
    QueryOfUrl(ApiUrl, Join(CurrentWeatherQuery(lat, lon)));
    ParamsJoin(CurrentWeatherQuery(lat, lon));
  }

  /** Coordinates without '&' are read back verbatim from the daily URL,
      beside the fixed metric list and time zone. */
  lemma DailyWeatherUrlParams(lat: string, lon: string)
    requires '&' !in lat && '&' !in lon
    ensures Params(QueryOf(DailyWeatherUrl(lat, lon))) == DailyWeatherQuery(lat, lon)
  {
    FixedPartsPlain();
    QueriesPlain(lat, lon);
    QueryOfUrl(ApiUrl, Join(DailyWeatherQuery(lat, lon)));
    ParamsJoin(DailyWeatherQuery(lat, lon));
  }

  /** The keys of the four parameters differ. */
  lemma KeysDistinct()
    ensures "latitude" != "longitude" && "latitude" != "timezone" && "longitude" != "timezone"
    ensures "current_weather" != "latitude" && "current_weather" != "longitude" && "current_weather" != "timezone"
    ensures "daily" != "latitude" && "daily" != "longitude" && "daily" != "timezone"
  {
    assert "latitude"[1] != "longitude"[1];
    assert "timezone"[0] != "latitude"[0] && "timezone"[0] != "longitude"[0];
    assert |"current_weather"| != |"latitude"| && |"current_weather"| != |"longitude"|;
    assert |"current_weather"| != |"timezone"|;
    assert |"daily"| != |"latitude"| && |"daily"| != |"longitude"| && |"daily"| != |"timezone"|;
  }

  /** Looking parameters up by name in a four-parameter list whose keys are
      those of the upstream requests. */
  lemma GetFour(ps: seq<Param>, lat: string, lon: string, third: Param)
    requires third.0 == "current_weather" || third.0 == "daily"
    requires ps == [("latitude", lat), ("longitude", lon), third, ("timezone", Timezone)]
    ensures Get(ps, "latitude") == Some(lat)
    ensures Get(ps, "longitude") == Some(lon)
    ensures Get(ps, "timezone") == Some(Timezone)
  {
    KeysDistinct();
    assert ps[1..] == [("longitude", lon), third, ("timezone", Timezone)];
    assert ps[1..][1..] == [third, ("timezone", Timezone)];
    assert ps[1..][1..][1..] == [("timezone", Timezone)];
    assert third.0 != "timezone";
    assert Get(ps[1..][1..][1..], "timezone") == Some(Timezone);
    assert Get(ps[1..][1..], "timezone") == Some(Timezone);
    assert Get(ps[1..], "timezone") == Some(Timezone);
  }

  /** Both requests carry the same coordinates and the same time zone. */
  lemma UrlsAgree(lat: string, lon: string)
    requires '&' !in lat && '&' !in lon
    ensures var c := Params(QueryOf(CurrentWeatherUrl(lat, lon)));
            var d := Params(QueryOf(DailyWeatherUrl(lat, lon)));
            Get(c, "latitude") == Get(d, "latitude") == Some(lat)
            && Get(c, "longitude") == Get(d, "longitude") == Some(lon)
            && Get(c, "timezone") == Get(d, "timezone") == Some(Timezone)
  {
    CurrentWeatherUrlParams(lat, lon);
    DailyWeatherUrlParams(lat, lon);
    GetFour(CurrentWeatherQuery(lat, lon), lat, lon, ("current_weather", "true"));
    GetFour(DailyWeatherQuery(lat, lon), lat, lon, ("daily", DailyMetrics));
  }

  /** Because nothing is encoded, a latitude holding '&' is cut short: the
      latitude read back from the URL is exactly `lat` only when `lat` has
      no '&'. */
  lemma LatitudeReadBackIff(lat: string, lon: string)
    ensures Get(Params(QueryOf(CurrentWeatherUrl(lat, lon))), "latitude") == Some(lat) <==> '&' !in lat
  {
    if '&' !in lat {
      var ps := CurrentWeatherQuery(lat, lon);
      FixedPartsPlain();
      QueryOfUrl(ApiUrl, Join(ps));
      assert Join(ps) == Pair(("latitude", lat)) + "&" + Join(ps[1..]);
      assert '=' !in "latitude" && '&' !in "latitude";
      FirstValueCut("latitude", lat, Join(ps[1..]));
    } else {
      LatitudeCut(lat, lon);
    }
  }

  /** A latitude `a&b` is read back as `a`. */
  lemma LatitudeCut(lat: string, lon: string)
    requires '&' in lat
    ensures var a := lat[..IndexOf(lat, '&')];
            |a| < |lat| && Get(Params(QueryOf(CurrentWeatherUrl(lat, lon))), "latitude") == Some(a)
  {
    var i := IndexOf(lat, '&');
    var a, b := lat[..i], lat[i + 1..];
    assert lat == a + "&" + b;
    var rest := b + "&" + Join(CurrentWeatherQuery(lat, lon)[1..]);
    LatitudeSplitsQuery(lat, lon, a, b);
    FixedPartsPlain();
    QueryOfUrl(ApiUrl, Join(CurrentWeatherQuery(lat, lon)));
    assert '=' !in "latitude" && '&' !in "latitude";
    FirstValueCut("latitude", a, rest);
  }

  /** In the joined current-weather query, a latitude `a&b` ends the first
      piece after `a`. */
  lemma LatitudeSplitsQuery(lat: string, lon: string, a: string, b: string)
    requires lat == a + "&" + b
    ensures var ps := CurrentWeatherQuery(lat, lon);
            Join(ps) == Pair(("latitude", a)) + "&" + (b + "&" + Join(ps[1..]))
  {
    var ps := CurrentWeatherQuery(lat, lon);
    assert Join(ps) == Pair(("latitude", lat)) + "&" + Join(ps[1..]);
  }

  /** With no coordinates in the request, both URLs carry Iași's. */
  lemma DefaultCoordinatesRequested(latParam: Option<string>, lonParam: Option<string>)
    requires latParam.None? || latParam == Some("")
    requires lonParam.None? || lonParam == Some("")
    ensures var lat, lon := Coordinate(latParam, DefaultLat), Coordinate(lonParam, DefaultLon);
            Params(QueryOf(CurrentWeatherUrl(lat, lon))) == CurrentWeatherQuery("47.156944", "27.590278")
            && Params(QueryOf(DailyWeatherUrl(lat, lon))) == DailyWeatherQuery("47.156944", "27.590278")
  {
    CurrentWeatherUrlParams(DefaultLat, DefaultLon);
    DailyWeatherUrlParams(DefaultLat, DefaultLon);
  }
}
