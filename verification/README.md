# weather-service, modelled in Dafny

A model of the core of a small HTTP service that answers `GET /weather?lat=…&lon=…`
with today's short forecast, its temperature and a coarse category (hot, cold or
moderate). The service asks an upstream weather API in two dependent steps:

1. The "points" URL is the configured template with latitude and longitude
   substituted. It returns a document whose `properties.forecast` is the URL of a
   forecast feed.
2. That feed returns an ordered list of periods. The first period named exactly
   `"Today"` gives the answer.

Any failure on the way makes `GetWeather` return `("", 0, err)`. The handler turns
this into a 400 (missing coordinate), 500 (lookup error) or 200 (forecast) response.

Modules:

- `Wrappers` (`wrappers.dfy`): `Option` and `Result`.
- `HttpClient` (`http_client.dfy`): the transport seam. A client is any total
  function from a URL to Go's `(response, error)` pair. The decoded shapes of the
  upstream bodies are datatypes: `Period`, a JSON `Object` reduced to the two
  fields read, `Invalid` for a body that is not JSON, and `Unreadable` for a body
  whose read fails.
- `Fmt` (`fmt.dfy`): the part of `fmt.Sprintf` used to build the points URL, and
  `%d` for status codes.
- `WeatherService` (`weather_service.dfy`): the resolver and the classifier.
  - `Resolve` specifies one lookup as a value. It gives the three results and the
    list of URLs requested.
  - The method `GetWeather` follows the source step by step: early returns, then
    a loop over the periods. It is proved equal to `Resolve`, and its ghost
    out-parameter logs the requested URLs.
  - The lemmas state what the lookup promises.
- `Handlers` (`handlers.dfy`): the request handler as a function returning the
  status, the JSON envelope and the service calls it made. It is parameterised by
  the `WeatherService` interface. `ServiceOf` plugs in the real resolver and
  classifier.
- `WeatherServiceTest` (`weather_service_test.dfy`): the scenarios of the
  repository's tests, stated as lemmas over a mock client.

Points the model follows from the code:

- Only status 200 is accepted, not every 2xx status (weather_service.go:41, :66).
- A body that is valid JSON but lacks `properties.forecast` or `properties.periods`
  is not an error. It decodes to the zero value: an empty forecast URL, or an empty
  period list. An empty period list then fails with the "no Today" error.
- Errors are Go errors with plain messages, not a typed taxonomy. `Failure` keeps
  the stage and the kind of each failure. `Message` gives the text the handler
  sends back.

## Model

| member | source | states |
|---|---|---|
| `WeatherService.CategorizeTemperature` | weather_service.go:99-108 | the result is one of "hot", "cold", "moderate"; "hot" exactly when temp >= 85, "cold" exactly when temp <= 60, "moderate" exactly when 61 <= temp <= 84 |
| `WeatherService.CategorizeTemperatureExamples` | weather_service_test.go:93-99 | 90 is hot, 50 is cold, 70 is moderate; the range edges 85, 60, 61 and 84 fall on the documented sides |
| `WeatherService.FirstToday` | weather_service.go:89-93 | returns the index of a period named "Today" with no earlier period so named; returns nothing exactly when no period is named "Today" |
| `WeatherService.Resolve` | weather_service.go:33-96 | a lookup makes one or two requests, and the first is always the points URL; every failed lookup returns the empty forecast and temperature 0 |
| `WeatherService.GetWeather` | weather_service.go:33-96 | the step-by-step lookup returns the same forecast, temperature and error as `Resolve`, and requests the same URLs in the same order; on error the forecast is "" and the temperature 0 |
| `WeatherService.PointsFailureStopsLookup` | weather_service.go:36-57 | the points stage fails exactly on a transport error, a non-200 status, an unreadable body or an undecodable body; that is exactly when only one request is made, and then the result is ("", 0, a points-stage error) |
| `WeatherService.TransportErrorBeforeStatus` | weather_service.go:36-39 | a transport error on the points request is the error returned, whatever status comes with it, and its message is passed through |
| `WeatherService.PointsStatusFailure` | weather_service.go:41-43 | without a transport error, a non-200 points status is the error, carrying that status code |
| `WeatherService.ForecastRequestUsesPointsBody` | weather_service.go:59-61 | once the points stage yields a forecast URL, the requests are exactly the points URL and then that URL |
| `WeatherService.ForecastUrlFromPointsBody` | weather_service.go:50-61 | after a 200 points answer whose body decodes, the second request goes to the `properties.forecast` string of the body, unvalidated, or to "" when the field is absent; whatever `properties.periods` holds is ignored |
| `WeatherService.ForecastFailureFails` | weather_service.go:61-87 | any failure of the forecast stage is the lookup's error, tagged with that stage, with result "" and 0 |
| `WeatherService.ForecastStageFailureCauses` | weather_service.go:61-87 | once the points stage succeeds, the lookup fails in the forecast stage exactly on a transport error, a non-200 status, an unreadable body or an undecodable body of the forecast answer; the transport error is reported whatever the status, and a non-200 status with its code |
| `WeatherService.SuccessIsFirstToday` | weather_service.go:89-93 | after both stages, the lookup returns the short forecast and temperature of the first period named "Today"; later matches are ignored |
| `WeatherService.NoTodayFails` | weather_service.go:95 | after both stages, when no period is named "Today" (the empty list included), the result is ("", 0, "no forecast found for 'Today'") |
| `WeatherService.SuccessNeedsBothStages` | weather_service.go:33-96 | a lookup succeeds if and only if both stages succeed and some period is named "Today" |
| `Fmt.SprintfLiteral` | weather_service.go:35 | template text without `%` is copied into the URL unchanged |
| `Fmt.SprintfVerb` | weather_service.go:35 | a `%s` is replaced by the next argument, which is consumed |
| `Fmt.SprintfTwoPlaceholders` | weather_service.go:35 | a template with two `%s` and no other `%` receives latitude at the first and longitude at the second, with nothing appended |
| `Fmt.SprintfOneVerbExtra` | weather_service.go:35 | a template with only one `%s` gets latitude there, and longitude is appended as `%!(EXTRA string=…)` |
| `Handlers.WeatherHandler` | handlers.go:9-42 | 400 exactly when a coordinate is empty, with the fixed message and no service call; 500 exactly when the lookup errs, with the error text and only the lookup called; otherwise 200 with the lookup's forecast and temperature and the classifier's category of that temperature |
| `Handlers.HandlerOverResolver` | handlers.go:24-40 | over the real resolver: 200 if and only if both coordinates are given and the lookup succeeds; a 500 body carries the failure's message; a 200 value is the resolver's temperature unchanged, with the category the thresholds give |
| `Handlers.MissingCoordinateIgnoresUpstream` | handlers.go:17-21 | with a coordinate missing, the response does not depend on the upstream at all, and no service method is called |
| `WeatherServiceTest.PointsRequestOfTemplate` | weather_service_test.go:26-32 | the template `http://example.com/points/%s,%s` with 35.6895 and 139.6917 gives `http://example.com/points/35.6895,139.6917` |
| `WeatherServiceTest.GetWeatherSuccess` | weather_service_test.go:24-53 | with both fixture bodies, the lookup returns ("Partly Cloudy", 70, no error) after requesting the points and forecast URLs |
| `WeatherServiceTest.GetWeatherFailToGetPoints` | weather_service_test.go:55-69 | a points answer with status 500 and a transport error returns ("", 0, that transport error) after one request |
| `WeatherServiceTest.GetWeatherFailToGetForecast` | weather_service_test.go:71-91 | a forecast answer with status 500 returns ("", 0, a forecast-stage status error) |
| `WeatherServiceTest.HandlerSuccess` | handlers.go:31-40 | end to end over the fixtures: 200 with forecast "Partly Cloudy", value 70, category "moderate" |
| `WeatherServiceTest.HandlerMissingCoordinates` | handlers.go:17-21 | end to end: no coordinates give 400 with "Latitude and Longitude are required" |

## Left out

- The network. `DefaultHTTPClient.Get` (http_client.go:16-18) wraps `net/http`, and the model replaces it with an arbitrary client function. Timeouts and connection reuse are not modelled.
- JSON decoding internals. `encoding/json` is reduced to what the two target structs see. A field is absent (zero value), present, or of the wrong type (an error). A body that is not JSON is an error. Case-insensitive key matching and number range checks fall under "present" or "wrong type".
- `io.ReadAll` is reduced to "the body reads" or "it fails with a message".
- `defer resp.Body.Close()` (weather_service.go:40, :65): releasing response bodies has no observable effect on the results.
- `fmt.Sprintf` verbs other than `%s` and `%%`. The model copies them through as text, while Go would format them. The template is configuration read from `WEATHER_API_URL` (main.go:21-24), and none ships with the code; the only template in the repository is the test's `http://example.com/points/%s,%s` (weather_service_test.go:26), which uses `%s` only.
- Integer width: temperatures and status codes are unbounded integers. Go's 64-bit `int` never wraps here, because out-of-range JSON numbers are decode errors.
- Exact wording of library errors (transport, read, decode). They are carried as opaque message strings.
- The unused `forecastPath` field and `NewWeatherServiceClient` (weather_service.go:20-30). The client is the datatype `WeatherServiceClient` holding the transport and the template.
- main.go: loading `.env`, the fatal exit when `WEATHER_API_URL` is missing, server setup, middleware and port binding. Its inline route (main.go:41-69) is the same logic as handlers.go:9-42, modelled once as `Handlers.WeatherHandler`.
- JSON serialisation of the response envelope, and the error returned by `c.JSON`.
- Concurrency of the HTTP server. Requests share no state.
