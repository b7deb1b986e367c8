/** handleRequest (worker.js:42-142) as a pure function. The two awaited
    fetches become inputs: for each request, the outcome the network would
    give. Field reads on the decoded payloads follow the source's order, and
    every error thrown in the try block ends in the one error page. */
module Handler {
  import opened Wrappers
  import opened Rain
  import opened WeatherCodes
  import opened Upstream

  /** What an awaited fetch and the body read after it give: a decoded
      payload when the response is ok, a response that is not ok, or an
      error thrown with a message (network failure, unparsable JSON). */
  datatype Outcome<P> = Ok(payload: P) | NotOk | Threw(message: string)

  /** The `current_weather` member of the current-weather payload.
      Temperature and wind speed are kept as the text the page shows;
      `weathercode` is None when absent (only integer codes are modelled). */
  datatype CurrentWeather = CurrentWeather(temperature: string, windspeed: string, weathercode: Option<int>)

  /** The current-weather payload; None when `current_weather` is absent. */
  datatype CurrentPayload = CurrentPayload(currentWeather: Option<CurrentWeather>)

  /** The `daily` member: the mean precipitation probabilities per day
      (None when the array is absent; an entry is None when null). */
  datatype Daily = Daily(precipitationProbabilityMean: Option<seq<Option<real>>>)

  /** The daily payload; None when `daily` is absent. */
  datatype DailyPayload = DailyPayload(daily: Option<Daily>)

  /** The values the success page interpolates. */
  datatype WeatherReport = WeatherReport(temperature: string, windspeed: string, description: string, rainMessage: string)

  datatype Page = WeatherPage(report: WeatherReport) | ErrorPage(message: string)

  /** The response, with the URLs requested on the way, in order. */
  datatype Response = Response(requested: seq<string>, status: int, contentType: string, page: Page)

  const ContentType := "text/html"
  const CurrentFailed := "Failed to fetch current weather data"
  const DailyFailed := "Failed to fetch daily weather data"

  /** The message of the TypeError the runtime throws when a property of
      `undefined` is read. */
  function ReadOfUndefined(property: string): string {
    "Cannot read properties of undefined (reading '" + property + "')"
  }

  /** `precipitation_probability_mean[0]`: the first entry, None for an
      empty array. */
  function Today(days: seq<Option<real>>): (p: Option<real>)
    ensures |days| == 0 ==> p.None?
    ensures |days| > 0 ==> p == days[0]
  {
    if |days| == 0 then None else days[0]
  }

  /** The field reads after both fetches (worker.js:71-74) and the values
      that the success page interpolates. */
  function Report(current: CurrentPayload, daily: DailyPayload): (r: Result<WeatherReport>)
    ensures current.currentWeather.None? ==> r == Failure(ReadOfUndefined("temperature"))
    ensures current.currentWeather.Some? && daily.daily.None?
            ==> r == Failure(ReadOfUndefined("precipitation_probability_mean"))
    ensures current.currentWeather.Some? && daily.daily.Some?
            && daily.daily.value.precipitationProbabilityMean.None?
            ==> r == Failure(ReadOfUndefined("0"))
    ensures r.Success? <==> current.currentWeather.Some? && daily.daily.Some?
                            && daily.daily.value.precipitationProbabilityMean.Some?
    ensures r.Success? ==>
      var cw := current.currentWeather.value;
      && r.value.temperature == cw.temperature
      && r.value.windspeed == cw.windspeed
      && r.value.description == Describe(cw.weathercode).ro
      && r.value.rainMessage == RainMessage(Today(daily.daily.value.precipitationProbabilityMean.value))
  {
    match current.currentWeather
    case None => Failure(ReadOfUndefined("temperature"))
    case Some(cw) =>
      match daily.daily
      case None => Failure(ReadOfUndefined("precipitation_probability_mean"))
      case Some(d) =>
        match d.precipitationProbabilityMean
        case None => Failure(ReadOfUndefined("0"))
        case Some(days) =>
          Success(WeatherReport(cw.temperature, cw.windspeed,
                                Describe(cw.weathercode).ro, RainMessage(Today(days))))
  }

  /** The try block: the requests it issues, and the report or the message
      of what it threw. */
  function Attempt(currentUrl: string, dailyUrl: string,
                   current: Outcome<CurrentPayload>, daily: Outcome<DailyPayload>): (a: (seq<string>, Result<WeatherReport>))
    ensures !current.Ok? ==> a.0 == [currentUrl]
    ensures current.Ok? ==> a.0 == [currentUrl, dailyUrl]
  {
    match current
    case Threw(m) => ([currentUrl], Failure(m))
    case NotOk => ([currentUrl], Failure(CurrentFailed))
    case Ok(cp) =>
      match daily
      case Threw(m) => ([currentUrl, dailyUrl], Failure(m))
      case NotOk => ([currentUrl, dailyUrl], Failure(DailyFailed))
      case Ok(dp) => ([currentUrl, dailyUrl], Report(cp, dp))
  }

  /** handleRequest: resolve the coordinates, run the try block, and answer
      with the success page (status 200) or the error page (status 500). */
  function HandleRequest(latParam: Option<string>, lonParam: Option<string>,
                         current: Outcome<CurrentPayload>, daily: Outcome<DailyPayload>): (r: Response)
    ensures r.contentType == "text/html"
    ensures r.status == 200 || r.status == 500
    ensures r.status == 200 <==> r.page.WeatherPage?
    ensures var lat, lon := Coordinate(latParam, DefaultLat), Coordinate(lonParam, DefaultLon);
            r.requested == if current.Ok? then [CurrentWeatherUrl(lat, lon), DailyWeatherUrl(lat, lon)]
                           else [CurrentWeatherUrl(lat, lon)]
    ensures current.NotOk? ==> r.page == ErrorPage("Failed to fetch current weather data")
    ensures current.Threw? ==> r.page == ErrorPage(current.message)
    ensures current.Ok? && daily.NotOk? ==> r.page == ErrorPage("Failed to fetch daily weather data")
    ensures current.Ok? && daily.Threw? ==> r.page == ErrorPage(daily.message)
    ensures current.Ok? && daily.Ok? ==>
            r.page == (var rep := Report(current.payload, daily.payload);
                       if rep.Success? then WeatherPage(rep.value) else ErrorPage(rep.message))
  {
    var lat := Coordinate(latParam, DefaultLat);
    var lon := Coordinate(lonParam, DefaultLon);
    var (requested, result) := Attempt(CurrentWeatherUrl(lat, lon), DailyWeatherUrl(lat, lon), current, daily);
    match result
    case Success(report) => Response(requested, 200, ContentType, WeatherPage(report))
    case Failure(message) => Response(requested, 500, ContentType, ErrorPage(message))
  }

  /** When the current-weather call fails, the daily call is never made:
      its outcome does not matter, and only the error page comes back. */
  lemma DailySkippedWhenCurrentFails(latParam: Option<string>, lonParam: Option<string>,
                                     current: Outcome<CurrentPayload>,
                                     daily1: Outcome<DailyPayload>, daily2: Outcome<DailyPayload>)
    requires !current.Ok?
    ensures HandleRequest(latParam, lonParam, current, daily1) == HandleRequest(latParam, lonParam, current, daily2)
    ensures |HandleRequest(latParam, lonParam, current, daily1).requested| == 1
    ensures HandleRequest(latParam, lonParam, current, daily1).status == 500
  {
  }

  /** Both calls ok and both payloads complete: status 200 with the report
      built from the table lookup and the rain classifier. */
  lemma SuccessPath(latParam: Option<string>, lonParam: Option<string>,
                    cw: CurrentWeather, days: seq<Option<real>>)
    ensures var r := HandleRequest(latParam, lonParam, Ok(CurrentPayload(Some(cw))),
                                   Ok(DailyPayload(Some(Daily(Some(days))))));
            r.status == 200 && r.contentType == "text/html"
            && r.page == WeatherPage(WeatherReport(cw.temperature, cw.windspeed,
                                                   Describe(cw.weathercode).ro, RainMessage(Today(days))))
  {
  }

  /** The page answers 200 exactly when both calls succeed and every field
      read finds its object. */
  lemma SuccessIff(latParam: Option<string>, lonParam: Option<string>,
                   current: Outcome<CurrentPayload>, daily: Outcome<DailyPayload>)
    ensures HandleRequest(latParam, lonParam, current, daily).status == 200
        <==> current.Ok? && daily.Ok?
             && current.payload.currentWeather.Some?
             && daily.payload.daily.Some?
             && daily.payload.daily.value.precipitationProbabilityMean.Some?
  {
  }

  /** Temperature 10, wind speed 5, code 0 and a probability of 80 render
      "Cer senin" and the umbrella message with status 200. */
  lemma ClearSkyWithUmbrella(latParam: Option<string>, lonParam: Option<string>)
    ensures var r := HandleRequest(latParam, lonParam, Ok(CurrentPayload(Some(CurrentWeather("10", "5", Some(0))))),
                                   Ok(DailyPayload(Some(Daily(Some([Some(80.0)]))))));
            r.status == 200
            && r.page == WeatherPage(WeatherReport("10", "5", "Cer senin", "Plouă sigur - ia umbrela"))
  {
  }

  /** A missing first probability, or an empty array, reads as no rain. */
  lemma MissingProbabilityNoRain(latParam: Option<string>, lonParam: Option<string>,
                                 cw: CurrentWeather, days: seq<Option<real>>)
    requires |days| == 0 || days[0].None? || days[0] == Some(0.0)
    ensures HandleRequest(latParam, lonParam, Ok(CurrentPayload(Some(cw))),
                          Ok(DailyPayload(Some(Daily(Some(days)))))).page.report.rainMessage == "Nu plouă"
  {
  }
}
