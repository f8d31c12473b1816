/**
 * The upstream tracking API as the `/track` handler sees it. The HTTP call
 * (server.js lines 45-52) is replaced by an oracle: for a tracking number and a
 * carrier code it tells whether the call threw or returned, and with what.
 *
 * JavaScript truthiness is modelled with `Option`: `None` stands for any
 * falsy value (absent, `null`); where the handler uses `||` on a string, the
 * empty string counts as falsy as well.
 */
module Upstream {
  import opened Wrappers

  /** One tracking event of the upstream payload, passed through unchanged. */
  datatype Event = Event(date: string, status: string, location: string)

  /** A response body the call returned (`response.data`). */
  datatype Body = Body(
    errorFlag: bool,                 // truthiness of `response.data.error`
    status: Option<string>,          // `response.data.status`
    events: Option<seq<Event>>)      // `response.data.events`

  /** The `response` attached to a thrown HTTP error, if the server answered at all. */
  datatype HttpResponse = HttpResponse(status: int, data: Option<string>)

  /** A thrown error: `error.response` (absent on network failure or timeout) and `error.message`. */
  datatype UpstreamError = UpstreamError(response: Option<HttpResponse>, message: string)

  /** What one upstream call did. */
  datatype Outcome =
    | Returned(data: Option<Body>)   // the call resolved; `data` is `response.data`
    | Threw(err: UpstreamError)      // the call rejected

  /** The upstream API: tracking number and carrier code to outcome. */
  type Oracle = (string, string) -> Outcome

  /** `response.data && !response.data.error` (server.js line 54). */
  predicate IsGood(o: Outcome) {
    o.Returned? && o.data.Some? && !o.data.value.errorFlag
  }
}
