/**
  The forecast resolver and the temperature classifier of `WeatherServiceClient`.

  `GetWeather` turns a latitude/longitude pair into today's short forecast and
  temperature with two dependent upstream requests: the points URL (the
  configured template with both coordinates substituted) yields the URL of a
  forecast feed, and that feed yields an ordered list of periods, of which the
  first one named exactly "Today" is the answer. Any failure on the way ends the
  lookup with `("", 0, err)`.

  `Resolve` is the specification of the lookup as one expression; the method
  `GetWeather` follows the source step by step and is proved to agree with it.
  Each property the service promises is a lemma about `Resolve`.
 */
module WeatherService {
  import opened Wrappers
  import opened HttpClient
  import Fmt

  /** The service: its transport and the points URL template (two `%s` verbs). */
  datatype WeatherServiceClient = WeatherServiceClient(client: Client, apiUrl: string)

  /** Which of the two upstream requests a failure belongs to. */
  datatype Stage = PointsStage | ForecastStage

  /** Everything that can make `GetWeather` return an error. */
  datatype Failure =
    | TransportFailure(stage: Stage, cause: string)  // `Get` returned an error
    | BadStatus(stage: Stage, status: int)           // status other than 200
    | ReadFailure(stage: Stage, cause: string)       // the body could not be read
    | DecodeFailure(stage: Stage, cause: string)     // the body did not decode
    | NoToday                                        // no period is named "Today"

  /** The text of the Go error value for a failure (`err.Error()`). */
  function Message(f: Failure): string {
    match f
    case TransportFailure(_, cause) => cause
    case BadStatus(stage, status) =>
      "failed to get " + (if stage == PointsStage then "points" else "forecast")
      + " data: status code " + Fmt.Decimal(status)
    case ReadFailure(_, cause) => cause
    case DecodeFailure(_, cause) => cause
    case NoToday => "no forecast found for 'Today'"
  }

  /** The selection key for today's period; matched exactly, case included. */
  const Today := "Today"

  /**
    One lookup as a value: the three results of `GetWeather` and the URLs it
    requested, in order.
   */
  datatype Run = Run(forecast: string, temperature: int, err: Option<Failure>, requests: seq<string>)

  /** The first request: the template with latitude and longitude substituted in order. */
  function PointsUrl(c: WeatherServiceClient, lat: string, lon: string): string {
    Fmt.Sprintf(c.apiUrl, [lat, lon])
  }

  /**
    `json.Unmarshal` of a points body into `{Properties {Forecast string}}`:
    a missing `forecast` leaves "", a wrongly typed one or a non-JSON body is an error.
   */
  function DecodePoints(j: Json): Result<string, string> {
    match j
    case Invalid(cause) => Err(cause)
    case Object(forecast, _) =>
      match forecast
      case Absent => Ok("")
      case Present(url) => Ok(url)
      case Mistyped(cause) => Err(cause)
  }

  /**
    `json.Unmarshal` of a forecast body into `{Properties {Periods []Period}}`:
    missing `periods` leave the empty list, wrongly typed ones or a non-JSON body
    are an error.
   */
  function DecodeForecast(j: Json): Result<seq<Period>, string> {
    match j
    case Invalid(cause) => Err(cause)
    case Object(_, periods) =>
      match periods
      case Absent => Ok([])
      case Present(ps) => Ok(ps)
      case Mistyped(cause) => Err(cause)
  }

  /**
    The checks both stages make on what `Get` returned, in the order they are
    made: the transport error first, then the status, then reading the body.
   */
  function Receive(a: Answer, stage: Stage): Result<Json, Failure> {
    if a.failure.Some? then Err(TransportFailure(stage, a.failure.value))
    else if a.reply.status != StatusOK then Err(BadStatus(stage, a.reply.status))
    else if a.reply.body.Unreadable? then Err(ReadFailure(stage, a.reply.body.cause))
    else Ok(a.reply.body.json)
  }

  /** The first stage: request the points URL and decode the forecast URL from it. */
  function FetchPoints(c: WeatherServiceClient, lat: string, lon: string): Result<string, Failure> {
    match Receive(c.client(PointsUrl(c, lat, lon)), PointsStage)
    case Err(f) => Err(f)
    case Ok(j) =>
      match DecodePoints(j)
      case Err(cause) => Err(DecodeFailure(PointsStage, cause))
      case Ok(url) => Ok(url)
  }

  /** The second stage: request the forecast URL and decode its periods. */
  function FetchForecast(c: WeatherServiceClient, forecastUrl: string): Result<seq<Period>, Failure> {
    match Receive(c.client(forecastUrl), ForecastStage)
    case Err(f) => Err(f)
    case Ok(j) =>
      match DecodeForecast(j)
      case Err(cause) => Err(DecodeFailure(ForecastStage, cause))
      case Ok(periods) => Ok(periods)
  }

  /** The position of the first period named "Today", in upstream order. */
  function FirstToday(periods: seq<Period>): (r: Option<nat>)
    ensures r.Some? ==> r.value < |periods| && periods[r.value].name == Today
    ensures r.Some? ==> forall j :: 0 <= j < r.value ==> periods[j].name != Today
    ensures r.None? <==> forall j :: 0 <= j < |periods| ==> periods[j].name != Today
  {
    if periods == [] then None
    else if periods[0].name == Today then Some(0)
    else match FirstToday(periods[1..])
      case None => None
      case Some(i) => Some(i + 1)
  }

  /** The specification of `GetWeather`. */
  function Resolve(c: WeatherServiceClient, lat: string, lon: string): (run: Run)
    ensures |run.requests| in {1, 2} && run.requests[0] == PointsUrl(c, lat, lon)
    ensures run.err.Some? ==> run.forecast == "" && run.temperature == 0
  {
    var pointsUrl := PointsUrl(c, lat, lon);
    match FetchPoints(c, lat, lon)
    case Err(f) => Run("", 0, Some(f), [pointsUrl])
    case Ok(forecastUrl) =>
      var requests := [pointsUrl, forecastUrl];
      match FetchForecast(c, forecastUrl)
      case Err(f) => Run("", 0, Some(f), requests)
      case Ok(periods) =>
        match FirstToday(periods)
        case None => Run("", 0, Some(NoToday), requests)
        case Some(i) => Run(periods[i].shortForecast, periods[i].temperature, None, requests)
  }

  /**
    `GetWeather(lat, lon)`: the two-stage lookup, with early returns on every
    failure and a scan of the periods that stops at the first "Today". The ghost
    `requests` logs the URLs passed to the client, in order.
   */
  method GetWeather(c: WeatherServiceClient, lat: string, lon: string)
    returns (forecast: string, temperature: int, err: Option<Failure>, ghost requests: seq<string>)
    ensures Run(forecast, temperature, err, requests) == Resolve(c, lat, lon)
    ensures err.Some? ==> forecast == "" && temperature == 0
  {
    // Step 1: the forecast URL from the points endpoint.
    var pointsUrl := Fmt.Sprintf(c.apiUrl, [lat, lon]);
    requests := [pointsUrl];
    var resp := c.client(pointsUrl);
    if resp.failure.Some? {
      return "", 0, Some(TransportFailure(PointsStage, resp.failure.value)), requests;
    }
    if resp.reply.status != StatusOK {
      return "", 0, Some(BadStatus(PointsStage, resp.reply.status)), requests;
    }
    if resp.reply.body.Unreadable? {
      return "", 0, Some(ReadFailure(PointsStage, resp.reply.body.cause)), requests;
    }
    var pointData := DecodePoints(resp.reply.body.json);
    if pointData.Err? {
      return "", 0, Some(DecodeFailure(PointsStage, pointData.error)), requests;
    }

    // Step 2: the periods from the forecast endpoint.
    var forecastUrl := pointData.value;
    requests := requests + [forecastUrl];
    resp := c.client(forecastUrl);
    if resp.failure.Some? {
      return "", 0, Some(TransportFailure(ForecastStage, resp.failure.value)), requests;
    }
    if resp.reply.status != StatusOK {
      return "", 0, Some(BadStatus(ForecastStage, resp.reply.status)), requests;
    }
    if resp.reply.body.Unreadable? {
      return "", 0, Some(ReadFailure(ForecastStage, resp.reply.body.cause)), requests;
    }
    var forecastData := DecodeForecast(resp.reply.body.json);
    if forecastData.Err? {
      return "", 0, Some(DecodeFailure(ForecastStage, forecastData.error)), requests;
    }

    var periods := forecastData.value;
    var i := 0;
    while i < |periods|
      invariant 0 <= i <= |periods|
      invariant forall j :: 0 <= j < i ==> periods[j].name != Today
    {
      if periods[i].name == Today {
        return periods[i].shortForecast, periods[i].temperature, None, requests;
      }
      i := i + 1;
    }
    return "", 0, Some(NoToday), requests;
  }

  /** `CategorizeTemperature(temp)`: "hot" is tested first, then "cold". */
  function CategorizeTemperature(temp: int): (category: string)
    ensures category in {"hot", "cold", "moderate"}
    ensures category == "hot" <==> temp >= 85
    ensures category == "cold" <==> temp <= 60
    ensures category == "moderate" <==> 61 <= temp <= 84
  {
    if temp >= 85 then "hot"
    else if temp <= 60 then "cold"
    else "moderate"
  }

  // ---------------------------------------------------------------------------
  // Properties of the lookup
  // ---------------------------------------------------------------------------

  /**
    The points stage fails exactly when `Get` fails, the status is not 200, the
    body cannot be read or it does not decode; then the lookup ends with
    `("", 0, err)` after that single request.
   */
  lemma PointsFailureStopsLookup(c: WeatherServiceClient, lat: string, lon: string)
    ensures var a := c.client(PointsUrl(c, lat, lon));
      var run := Resolve(c, lat, lon);
      (a.failure.Some? || a.reply.status != StatusOK || a.reply.body.Unreadable?
        || DecodePoints(a.reply.body.json).Err?)
      <==> run.requests == [PointsUrl(c, lat, lon)]
    ensures var run := Resolve(c, lat, lon);
      run.requests == [PointsUrl(c, lat, lon)] ==>
        run.err.Some? && run.err.value.stage == PointsStage && run.forecast == "" && run.temperature == 0
  {
  }

  /**
    A transport error is checked before the status code: whatever status comes
    with it, the error returned is the transport's own.
   */
  lemma TransportErrorBeforeStatus(c: WeatherServiceClient, lat: string, lon: string, cause: string)
    requires c.client(PointsUrl(c, lat, lon)).failure == Some(cause)
    ensures Resolve(c, lat, lon).err == Some(TransportFailure(PointsStage, cause))
    ensures Message(Resolve(c, lat, lon).err.value) == cause
  {
  }

  /**
    A non-200 status on the points request (without a transport error) is
    reported with its status code, and the body is not read.
   */
  lemma PointsStatusFailure(c: WeatherServiceClient, lat: string, lon: string)
    requires c.client(PointsUrl(c, lat, lon)).failure.None?
    requires c.client(PointsUrl(c, lat, lon)).reply.status != StatusOK
    ensures Resolve(c, lat, lon).err == Some(BadStatus(PointsStage, c.client(PointsUrl(c, lat, lon)).reply.status))
  {
  }

  /**
    Once the points stage has produced a forecast URL, the second and last
    request goes to exactly that URL, unchecked.
   */
  lemma ForecastRequestUsesPointsBody(c: WeatherServiceClient, lat: string, lon: string, forecastUrl: string)
    requires FetchPoints(c, lat, lon) == Ok(forecastUrl)
    ensures Resolve(c, lat, lon).requests == [PointsUrl(c, lat, lon), forecastUrl]
  {
  }

  /**
    The forecast URL is whatever the points body says, "" when it says nothing;
    the decoder for the points stage ignores `properties.periods` altogether.
   */
  lemma ForecastUrlFromPointsBody(c: WeatherServiceClient, lat: string, lon: string,
                                  forecast: Field<string>, periods: Field<seq<Period>>)
    requires c.client(PointsUrl(c, lat, lon)).failure.None?
    requires c.client(PointsUrl(c, lat, lon)).reply.status == StatusOK
    requires c.client(PointsUrl(c, lat, lon)).reply.body == Readable(Object(forecast, periods))
    requires !forecast.Mistyped?
    ensures Resolve(c, lat, lon).requests
         == [PointsUrl(c, lat, lon), if forecast.Present? then forecast.value else ""]
  {
  }

  /**
    Once the points stage has produced a forecast URL, the lookup fails in the
    forecast stage exactly when the answer to that URL carries a transport
    error, a non-200 status, an unreadable body or a body that does not decode;
    the checks come in that order.
   */
  lemma ForecastStageFailureCauses(c: WeatherServiceClient, lat: string, lon: string, forecastUrl: string)
    requires FetchPoints(c, lat, lon) == Ok(forecastUrl)
    ensures var a := c.client(forecastUrl);
      var run := Resolve(c, lat, lon);
      (a.failure.Some? || a.reply.status != StatusOK || a.reply.body.Unreadable?
        || DecodeForecast(a.reply.body.json).Err?)
      <==> (run.err.Some? && run.err.value != NoToday)
    ensures var a := c.client(forecastUrl);
      a.failure.Some? ==> Resolve(c, lat, lon).err == Some(TransportFailure(ForecastStage, a.failure.value))
    ensures var a := c.client(forecastUrl);
      a.failure.None? && a.reply.status != StatusOK ==>
        Resolve(c, lat, lon).err == Some(BadStatus(ForecastStage, a.reply.status))
  {
  }

  /**
    A failure of the forecast stage ends the lookup with `("", 0, err)`, the
    error belonging to that stage.
   */
  lemma ForecastFailureFails(c: WeatherServiceClient, lat: string, lon: string, forecastUrl: string, f: Failure)
    requires FetchPoints(c, lat, lon) == Ok(forecastUrl)
    requires FetchForecast(c, forecastUrl) == Err(f)
    ensures var run := Resolve(c, lat, lon);
      run.err == Some(f) && f.stage == ForecastStage && run.forecast == "" && run.temperature == 0
  {
  }

  /**
    With both stages through, the lookup succeeds exactly when some period is
    named "Today", and then returns the short forecast and temperature of the
    first such period in upstream order; later matches are ignored.
   */
  lemma SuccessIsFirstToday(c: WeatherServiceClient, lat: string, lon: string,
                              forecastUrl: string, periods: seq<Period>, i: nat)
    requires FetchPoints(c, lat, lon) == Ok(forecastUrl)
    requires FetchForecast(c, forecastUrl) == Ok(periods)
    requires i < |periods| && periods[i].name == Today
    requires forall j :: 0 <= j < i ==> periods[j].name != Today
    ensures var run := Resolve(c, lat, lon);
      run.err.None? && run.forecast == periods[i].shortForecast && run.temperature == periods[i].temperature
  {
  }

  /** Without a period named "Today" (the empty list included) the lookup fails. */
  lemma NoTodayFails(c: WeatherServiceClient, lat: string, lon: string, forecastUrl: string, periods: seq<Period>)
    requires FetchPoints(c, lat, lon) == Ok(forecastUrl)
    requires FetchForecast(c, forecastUrl) == Ok(periods)
    requires forall j :: 0 <= j < |periods| ==> periods[j].name != Today
    ensures var run := Resolve(c, lat, lon);
      run.err == Some(NoToday) && run.forecast == "" && run.temperature == 0
      && Message(run.err.value) == "no forecast found for 'Today'"
  {
  }

  /** A lookup succeeds only when both requests succeeded and a "Today" period exists. */
  lemma SuccessNeedsBothStages(c: WeatherServiceClient, lat: string, lon: string)
    ensures Resolve(c, lat, lon).err.None? <==>
      FetchPoints(c, lat, lon).Ok? && FetchForecast(c, FetchPoints(c, lat, lon).value).Ok?
      && exists j :: 0 <= j < |FetchForecast(c, FetchPoints(c, lat, lon).value).value|
           && FetchForecast(c, FetchPoints(c, lat, lon).value).value[j].name == Today
  {
  }

  /** The classifier on the values the tests check, and on the edges of each range. */
  lemma CategorizeTemperatureExamples()
    ensures CategorizeTemperature(90) == "hot" && CategorizeTemperature(50) == "cold"
    ensures CategorizeTemperature(70) == "moderate"
    ensures CategorizeTemperature(85) == "hot" && CategorizeTemperature(60) == "cold"
    ensures CategorizeTemperature(61) == "moderate" && CategorizeTemperature(84) == "moderate"
  {
  }
}
