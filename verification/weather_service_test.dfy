/**
  The scenarios of the repository's tests, as lemmas over the model: a mock
  client that answers fixed URLs with fixed responses, the three `GetWeather`
  cases, the classifier values and the end-to-end handler answers.
 */
module WeatherServiceTest {
  import opened Wrappers
  import opened HttpClient
  import opened WeatherService
  import Fmt
  import H = Handlers

  const Template := "http://example.com/points/%s,%s"
  const Lat := "35.6895"
  const Lon := "139.6917"
  const PointsRequest := "http://example.com/points/35.6895,139.6917"
  const ForecastRequest := "http://example.com/forecast"

  /** `{"properties": {"forecast": "http://example.com/forecast"}}` with status 200. */
  const PointsOk := Answer(Reply(StatusOK, Readable(Object(Present(ForecastRequest), Absent))), None)

  /** The forecast document with one period, "Today", 70 °F, "Partly Cloudy". */
  const ForecastOk := Answer(Reply(StatusOK, Readable(Object(Absent,
                        Present([Period("Today", 70, "F", "Partly Cloudy")])))), None)

  /** Status 500 with an empty body; `transportError` is the error `Get` returns beside it. */
  function ServerError(transportError: Option<string>): Answer {
    Answer(Reply(500, Readable(Invalid("unexpected end of JSON input"))), transportError)
  }

  /** A mock client: answers the two fixture URLs, and any other URL with a transport error. */
  function Mock(points: Answer, forecast: Answer): WeatherServiceClient {
    WeatherServiceClient(
      url => if url == PointsRequest then points
             else if url == ForecastRequest then forecast
             else Answer(Reply(0, Unreadable("")), Some("unexpected call")),
      Template)
  }

  /** The template with the test coordinates is the URL the mock expects first. */
  lemma PointsRequestOfTemplate(c: WeatherServiceClient)
    requires c.apiUrl == Template
    ensures PointsUrl(c, Lat, Lon) == PointsRequest
  {
    TemplateParts(c.apiUrl, Lat, Lon);
    Fmt.SprintfTwoPlaceholders("http://example.com/points/", ",", "", Lat, Lon);
  }

  /** How the fixture template and the expected URL split around the two verbs. */
  lemma TemplateParts(t: string, lat: string, lon: string)
    requires t == Template && lat == Lat && lon == Lon
    ensures '%' !in "http://example.com/points/"
    ensures t == "http://example.com/points/" + "%s" + "," + "%s" + ""
    ensures "http://example.com/points/" + lat + "," + lon + "" == PointsRequest
  {
  }

  /** Both stages succeed and the only period is "Today": ("Partly Cloudy", 70, nil). */
  lemma GetWeatherSuccess()
    ensures Resolve(Mock(PointsOk, ForecastOk), Lat, Lon)
         == Run("Partly Cloudy", 70, None, [PointsRequest, ForecastRequest])
  {
    PointsRequestOfTemplate(Mock(PointsOk, ForecastOk));
  }

  /** The points request fails with both status 500 and a transport error: the error wins, one request. */
  lemma GetWeatherFailToGetPoints()
    ensures Resolve(Mock(ServerError(Some("failed to reach API")), ForecastOk), Lat, Lon)
         == Run("", 0, Some(TransportFailure(PointsStage, "failed to reach API")), [PointsRequest])
  {
    PointsRequestOfTemplate(Mock(ServerError(Some("failed to reach API")), ForecastOk));
  }

  /** The forecast request answers 500: ("", 0, error about the forecast status). */
  lemma GetWeatherFailToGetForecast()
    ensures Resolve(Mock(PointsOk, ServerError(None)), Lat, Lon)
         == Run("", 0, Some(BadStatus(ForecastStage, 500)), [PointsRequest, ForecastRequest])
  {
    var c := Mock(PointsOk, ServerError(None));
    PointsRequestOfTemplate(c);
    assert PointsRequest != ForecastRequest;
    assert FetchPoints(c, Lat, Lon) == Ok(ForecastRequest);
    assert FetchForecast(c, ForecastRequest) == Err(BadStatus(ForecastStage, 500));
  }

  /** End to end: the fixture request answers 200 with "Partly Cloudy", 70, "moderate". */
  lemma HandlerSuccess()
    ensures H.WeatherHandler(H.ServiceOf(Mock(PointsOk, ForecastOk)), Lat, Lon)
         == H.Response(H.StatusOK, H.ForecastEnvelope("Partly Cloudy", 70, "moderate"),
                       [H.GetWeatherCall(Lat, Lon), H.CategorizeCall(70)])
  {
    GetWeatherSuccess();
  }

  /** End to end: no coordinates answer 400 with the fixed message. */
  lemma HandlerMissingCoordinates()
    ensures H.WeatherHandler(H.ServiceOf(Mock(PointsOk, ForecastOk)), "", "")
         == H.Response(H.StatusBadRequest, H.ErrorEnvelope("Latitude and Longitude are required"), [])
  {
  }
}
