/**
  The transport seam of the service: the `HTTPClient` interface with its single
  `Get(url)` method, and the shapes of the upstream documents it returns.

  The network is not modelled. A client is an arbitrary total function from a URL
  to what `Get` hands back, so every property proved about the resolver holds for
  every transport, the real one and every test double alike.
 */
module HttpClient {
  import opened Wrappers

  /** `http.StatusOK`. */
  const StatusOK := 200

  /** One entry of `properties.periods` in a forecast document. */
  datatype Period = Period(name: string, temperature: int, temperatureUnit: string, shortForecast: string)

  /** How one JSON field looks to a decoder that expects a value of type `T`. */
  datatype Field<+T> =
    | Absent                    // missing or `null`: the decoder leaves the zero value
    | Present(value: T)         // present with the expected type
    | Mistyped(cause: string)   // present with another type: the decoder reports `cause`

  /**
    A response body as JSON, reduced to the two fields the service reads:
    `properties.forecast` of a points document and `properties.periods` of a
    forecast document. `Invalid` is a body that is not JSON at all.
   */
  datatype Json =
    | Object(forecast: Field<string>, periods: Field<seq<Period>>)
    | Invalid(cause: string)

  /** A response body as `io.ReadAll` sees it: its bytes, or the error reading them. */
  datatype Body = Readable(json: Json) | Unreadable(cause: string)

  /** An HTTP response: status code and body. */
  datatype Reply = Reply(status: int, body: Body)

  /**
    What `Get(url)` returns: Go's `(*http.Response, error)` pair. When `failure`
    is `Some`, callers must not look at `reply` (the real client leaves it nil; a
    test double may fill in both).
   */
  datatype Answer = Answer(reply: Reply, failure: Option<string>)

  /** The `HTTPClient` interface: one GET per call, no retries, no state. */
  type Client = string -> Answer
}
