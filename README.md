# Weather page worker: a verified model of its decision logic

The worker answers every HTTP request with an HTML page about the weather in
Iași (or at the `lat`/`lon` given in the query). It asks the Open-Meteo API
for the current conditions and then for the daily forecast. It looks the
weather code up in a fixed table of English/Romanian descriptions and turns
today's mean precipitation probability into one of three Romanian messages.
It renders either the weather page (status 200) or a single error page
(status 500). Both pages are `text/html`.

This project models that logic as pure Dafny functions and proves what it
promises:

- `Rain` (rain.dfy): the falsy-to-zero rule and the three-band classifier.
  The thresholds are strict, so 30 is in the middle band and 70 in the high
  band. The classifier agrees with an independent "thresholds reached" count
  and is monotonic.
- `WeatherCodes` (weather_codes.dfy): the 28-entry table as a `map<int, Desc>`
  and the lookup with its fallback pair. A code gets the fallback exactly
  when it is not in the table.
- `QueryString` (query_string.dfy): a reference reader for query strings.
  It splits at the first '?', then on '&', then on each piece's first '='.
  Reading back a joined list whose keys hold no '=' or '&' and whose
  values hold no '&' gives the list itself.
- `Upstream` (upstream.dfy): coordinate defaulting and the two upstream
  URLs. Each URL is proved to be the API URL followed by its parameters
  (coordinates, flag or metric list, time zone). Coordinates without '&' are
  read back verbatim from both URLs. Because nothing is encoded, a latitude
  that holds '&' is read back cut short.
- `Handler` (handler.dfy): `handleRequest` with the two fetches replaced by
  outcome inputs (`Ok(payload)`, `NotOk`, `Threw(message)`). The result is the
  URLs requested, the status, the content type and the page. The page is
  either the interpolated values or the error message.
- `Wrappers` (wrappers.dfy): `Option` and a `Result` whose failure is a
  message.

## Model

| member | source | states |
|---|---|---|
| `Rain.OrZero` | worker.js:74 | a missing or null probability becomes 0; any present number is kept (0 stays 0) |
| `Rain.Classify` | worker.js:76-83 | "Nu plouă" iff p < 30; "Posibil să plouă" iff 30 <= p < 70; "Plouă sigur - ia umbrela" iff p >= 70 |
| `Rain.RainMessage` | worker.js:74-83 | a missing probability gives "Nu plouă"; a present one is classified by the same three strict bands, each as an if-and-only-if |
| `Rain.MessagesDistinct` | worker.js:78-82 | the three messages differ pairwise, so the message identifies the band |
| `Rain.ClassifyCountsThresholds` | worker.js:76-83 | the band of the message equals the number of thresholds (30, 70) the probability reaches |
| `Rain.ClassifyMonotonic` | worker.js:76-83 | a higher probability never gives a less certain message |
| `Rain.Boundaries` | worker.js:77-82 | 29.9 is low, 30 and 69.9 are middle, 70 is high |
| `Rain.FalsyIsNoRain` | worker.js:74-78 | a missing, null or zero probability gives "Nu plouă" |
| `WeatherCodes.Describe` | worker.js:86 | a code in the table gets exactly its entry (both languages); an absent or unknown code gets the fallback pair |
| `WeatherCodes.TableCodes` | worker.js:7-36 | the table's keys are exactly the 28 listed WMO codes |
| `WeatherCodes.UnknownIffNotInTable` | worker.js:7-36 | the lookup yields the fallback pair if and only if the code is not in the table |
| `WeatherCodes.RomanianSharedBetweenSnowCodes` | worker.js:24-32 | codes 71/85 and 75/86 share their Romanian text but not their English text |
| `WeatherCodes.ClearSky` | worker.js:8 | code 0 is "Clear sky" / "Cer senin" |
| `QueryString.ParamsJoin` | worker.js:47-48 | reading back a query joined from parameters whose keys lack '=' and '&' and whose values lack '&' gives the same parameters in order |
| `QueryString.QueryOfUrl` | worker.js:47-48 | the query of `base?query` is `query` when the base holds no '?' |
| `QueryString.SplitAt` | worker.js:47-48 | splitting `a&b` where `a` holds no '&' gives `a` followed by the pieces of `b` |
| `Upstream.Coordinate` | worker.js:44-45 | an absent or empty parameter gives the default; any other value is used as given |
| `Upstream.CoordinateNonEmpty` | worker.js:44-45 | with a non-empty default the chosen coordinate is never empty |
| `Upstream.CurrentWeatherUrl` | worker.js:47 | for any coordinates the current-weather URL is the API URL, '?', and latitude, longitude, current_weather=true and timezone=Europe%2FBucharest joined |
| `Upstream.DailyWeatherUrl` | worker.js:48 | for any coordinates the daily URL is the API URL, '?', and latitude, longitude, the daily metric list and the same timezone joined |
| `Upstream.CurrentWeatherUrlParams` | worker.js:47 | coordinates without '&' are read back verbatim from the current-weather URL with the fixed flag and time zone |
| `Upstream.DailyWeatherUrlParams` | worker.js:48 | coordinates without '&' are read back verbatim from the daily URL with the fixed metric list and time zone |
| `Upstream.UrlsAgree` | worker.js:47-48 | for coordinates without '&', both URLs read back the given latitude and longitude and the same time zone |
| `Upstream.LatitudeReadBackIff` | worker.js:44-47 | for any longitude, the latitude read back from the current-weather URL is the one given if and only if it holds no '&' (no encoding) |
| `Upstream.LatitudeCut` | worker.js:47 | a latitude `a&b` is read back as the shorter `a` |
| `Upstream.DefaultCoordinatesRequested` | worker.js:44-48 | with lat and lon absent or empty, both URLs carry 47.156944 and 27.590278 |
| `Handler.Today` | worker.js:74 | the first daily entry; none for an empty array |
| `Handler.Report` | worker.js:71-86 | field reads in source order: a missing current_weather, daily or probability array throws the runtime's TypeError message; the read succeeds if and only if all three are present, and then the report holds the temperature, the wind speed, the Romanian description of the code and the rain message of today's probability |
| `Handler.Attempt` | worker.js:50-69 | the daily URL is requested only after a successful current-weather call |
| `Handler.HandleRequest` | worker.js:42-141 | content type is always text/html; status is 200 or 500 and 200 iff the weather page is shown; the requested URLs are the current one, then the daily one only if the first call succeeded; each fetch failure gives the error page with its message; with both calls ok the page is the report, or the error page with the field-read TypeError message |
| `Handler.DailySkippedWhenCurrentFails` | worker.js:52-57 | when the current-weather call fails, the daily outcome does not affect the response, one URL is requested and the status is 500 |
| `Handler.SuccessPath` | worker.js:71-120 | both calls ok with complete payloads give status 200, text/html and the interpolated report |
| `Handler.SuccessIff` | worker.js:50-141 | status 200 if and only if both calls are ok and every field read finds its object |
| `Handler.ClearSkyWithUmbrella` | worker.js:71-120 | temperature 10, wind 5, code 0, probability 80 give status 200 with "Cer senin" and "Plouă sigur - ia umbrela" |
| `Handler.MissingProbabilityNoRain` | worker.js:74-78 | an empty array, a null first entry or a zero first entry gives "Nu plouă" on the page |

## Left out

- The network calls `fetch`, `response.text()` and `response.json()` (worker.js:52, 55, 59, 62, 65, 69) are I/O. They are inputs of type `Outcome`. A rejected fetch and unparsable JSON are both `Threw(message)`.
- An error thrown by `response.text()` on a response that is not ok is not modelled. It would replace the fixed "Failed to fetch ..." message.
- The `console.error` logging (worker.js:56, 66) is observability only and does not affect the response.
- The `addEventListener('fetch', ...)` registration (worker.js:38-40) is runtime bootstrapping.
- `new URL(request.url)` (worker.js:43) and `searchParams.get` (worker.js:44-45) are library calls. `lat` and `lon` are `Option<string>` inputs, already decoded.
- `fetch`'s own URL normalisation (percent-encoding spaces, cutting at '#') is not modelled. URLs are read back with the plain reader in `QueryString`, which does no percent-decoding and does not read '+' as a space. "Read back verbatim" holds for that reader, not for what the upstream server decodes.
- JS number-to-string formatting of temperature and wind speed is floating point. Both arrive as the text the page shows. A missing member renders as whatever text is given.
- The static HTML, CSS and footer of both pages (worker.js:88-114, 122-136) are template text with no logic. A page is modelled as the values it interpolates.
- Payloads that are JSON `null` or not objects are not modelled. Only absent members are (`current_weather`, `daily`, `precipitation_probability_mean`), each raising a TypeError with the wording of the V8 engine that Workers run.
- Only integer or absent `weathercode` values are modelled (`None` is absent and gets the fallback). Other JSON values are left out. The lookup indexes an object by string key, so the string "0" or the array [0] would find "Cer senin", and "toString" or "constructor" would find an inherited member and show `undefined`.
- Async scheduling is left out. Only the order of the two fetches is kept: the daily URL is never requested after the first call fails.
