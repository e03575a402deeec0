/**
 * The order endpoint as the order form sees it: an HTTP response with a
 * decoded JSON body, and the rule by which `placeOrder` turns a failed
 * request into a response the form can inspect.
 */
module OrderApi {
  import opened JsValues

  /** An HTTP response: status code and decoded body (`response.data`). */
  datatype Response = Response(status: int, data: JsValue)

  /**
   * How the HTTP client's post ended: resolved with a 2xx response, rejected
   * with a client error that may carry the server's response, or rejected
   * with any other error.
   */
  datatype PostOutcome =
    | Resolved(response: Response)
    | ClientError(errorResponse: Option<Response>)
    | OtherError

  /** What `placeOrder` gives its caller: a response to inspect, or a thrown error. */
  datatype PlaceResult = Answered(response: Response) | Thrown

  /** A client error carrying a response is returned as that response; otherwise it is rethrown. */
  function PlaceOrder(outcome: PostOutcome): (r: PlaceResult)
    ensures r.Thrown? <==> outcome.OtherError? || outcome == ClientError(None)
    ensures outcome.Resolved? ==> r == Answered(outcome.response)
    ensures outcome.ClientError? && outcome.errorResponse.Some? ==> r == Answered(outcome.errorResponse.value)
  {
    match outcome
    case Resolved(response) => Answered(response)
    case ClientError(Some(response)) => Answered(response)
    case ClientError(None) => Thrown
    case OtherError => Thrown
  }
}
