/**
  The `GET /weather` handler: checks that both query parameters are present,
  asks the weather service for today's forecast, classifies the temperature and
  answers with one JSON envelope and an HTTP status.

  The handler depends on the `WeatherService` interface only. `Service` gives
  the two interface methods as functions; `ServiceOf` is the service backed by
  the resolver of module `WeatherService`. The response records which interface
  methods the handler called, in order, so that "not invoked" can be stated.
 */
module Handlers {
  import opened Wrappers
  import WS = WeatherService

  const StatusOK := 200
  const StatusBadRequest := 400
  const StatusInternalServerError := 500

  /** The fixed error text for a missing coordinate. */
  const MissingCoordinates := "Latitude and Longitude are required"

  /** What `GetWeather` returns: forecast, temperature and the error's text, if any. */
  datatype Outcome = Outcome(forecast: string, temperature: int, err: Option<string>)

  /** The `WeatherService` interface. */
  datatype Service = Service(getWeather: (string, string) -> Outcome, categorize: int -> string)

  /** One call the handler makes on the service. */
  datatype Call = GetWeatherCall(lat: string, lon: string) | CategorizeCall(temp: int)

  /** The JSON body: `{"error": …}` or `{"forecast": …, "temperature": {"value": …, "category": …}}`. */
  datatype Envelope =
    | ErrorEnvelope(error: string)
    | ForecastEnvelope(forecast: string, value: int, category: string)

  /** The single `c.JSON(status, body)` the handler writes, and the service calls it made. */
  datatype Response = Response(status: int, body: Envelope, calls: seq<Call>)

  /**
    The handler for one request. `lat` and `lon` are the query parameters as
    `QueryParam` returns them: "" when absent.
   */
  function WeatherHandler(service: Service, lat: string, lon: string): (r: Response)
    ensures r.status in {StatusOK, StatusBadRequest, StatusInternalServerError}
    ensures r.status == StatusBadRequest <==> lat == "" || lon == ""
    ensures r.status == StatusBadRequest ==> r.body == ErrorEnvelope(MissingCoordinates) && r.calls == []
    ensures r.status == StatusInternalServerError <==>
      lat != "" && lon != "" && service.getWeather(lat, lon).err.Some?
    ensures r.status == StatusInternalServerError ==>
      r.body == ErrorEnvelope(service.getWeather(lat, lon).err.value) && r.calls == [GetWeatherCall(lat, lon)]
    ensures r.status == StatusOK ==>
      var o := service.getWeather(lat, lon);
      r.body.ForecastEnvelope? && r.body.forecast == o.forecast && r.body.value == o.temperature
      && r.body.category == service.categorize(o.temperature)
      && r.calls == [GetWeatherCall(lat, lon), CategorizeCall(o.temperature)]
  {
    if lat == "" || lon == "" then
      Response(StatusBadRequest, ErrorEnvelope(MissingCoordinates), [])
    else
      var o := service.getWeather(lat, lon);
      if o.err.Some? then
        Response(StatusInternalServerError, ErrorEnvelope(o.err.value), [GetWeatherCall(lat, lon)])
      else
        var category := service.categorize(o.temperature);
        Response(StatusOK, ForecastEnvelope(o.forecast, o.temperature, category),
                 [GetWeatherCall(lat, lon), CategorizeCall(o.temperature)])
  }

  /** The service backed by the resolver, with errors reduced to their text. */
  function ServiceOf(c: WS.WeatherServiceClient): Service {
    Service(
      (lat, lon) =>
        var run := WS.Resolve(c, lat, lon);
        Outcome(run.forecast, run.temperature,
                if run.err.Some? then Some(WS.Message(run.err.value)) else None),
      WS.CategorizeTemperature)
  }

  /**
    The handler over the real resolver and classifier: it answers 200 exactly
    when both coordinates are given and the lookup succeeds; the value is the
    resolver's temperature unchanged and the category is the classifier's for
    that same value; a failed lookup is a 500 carrying the failure's message.
   */
  lemma HandlerOverResolver(c: WS.WeatherServiceClient, lat: string, lon: string)
    ensures var r := WeatherHandler(ServiceOf(c), lat, lon);
      var run := WS.Resolve(c, lat, lon);
      (r.status == StatusOK <==> lat != "" && lon != "" && run.err.None?)
      && (r.status == StatusInternalServerError ==> r.body == ErrorEnvelope(WS.Message(run.err.value)))
      && (r.status == StatusOK ==>
            r.body == ForecastEnvelope(run.forecast, run.temperature, WS.CategorizeTemperature(run.temperature))
            && (r.body.category == "hot" <==> run.temperature >= 85)
            && (r.body.category == "cold" <==> run.temperature <= 60)
            && (r.body.category == "moderate" <==> 61 <= run.temperature <= 84))
  {
  }

  /**
    With a coordinate missing the handler answers 400 whatever the upstream
    would have said, and never reaches the resolver.
   */
  lemma MissingCoordinateIgnoresUpstream(c1: WS.WeatherServiceClient, c2: WS.WeatherServiceClient, lat: string, lon: string)
    requires lat == "" || lon == ""
    ensures WeatherHandler(ServiceOf(c1), lat, lon) == WeatherHandler(ServiceOf(c2), lat, lon)
    ensures WeatherHandler(ServiceOf(c1), lat, lon).calls == []
  {
  }
}
