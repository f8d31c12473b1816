/**
 * The `/track` request handler (server.js lines 19-96): validate the number,
 * try each Pos Malaysia carrier code in turn until one call returns a usable
 * body, and turn the outcome into a response payload.
 *
 * The functions here are the specification of one request; the methods are
 * the handler as the source runs it (a loop with a mutable `lastError`, an
 * early return, an error record patched in place) and are proved equal to them.
 */
module TrackHandler {
  import opened Wrappers
  import opened TrackingFormat
  import opened Upstream

  /** The carrier codes, in the order they are tried. */
  const CARRIERS: seq<string> := ["pos-malaysia", "poslaju", "my-post", "malaysia-post"]

  const INVALID_FORMAT: string := "Format nombor tracking tidak valid"
  const PATTERN_TEXT: string := "2 huruf + 9 digit + 2 huruf"
  const CARRIER_LABEL: string := "Pos Malaysia"
  const DEFAULT_STATUS: string := "Dalam proses"
  const ALL_FAILED: string := "Semua percubaan carrier gagal"
  const GENERIC_MESSAGE: string := "Gagal mendapatkan maklumat tracking"
  const GENERIC_SUGGESTION: string := "Sila pastikan nombor tracking betul atau cuba lagi nanti"
  const NOT_FOUND_MESSAGE: string := "Nombor tracking tidak ditemui dalam sistem"
  const NOT_FOUND_SUGGESTION: string := "Pastikan nombor betul atau bungkusan sudah didaftarkan"

  /** `new Error('Semua percubaan carrier gagal')`: no response, only a message. */
  const GENERIC_ERROR: UpstreamError := UpstreamError(None, ALL_FAILED)

  /** `details.apiError`: the upstream body if there was one, otherwise the error's message. */
  datatype ApiError = ResponseData(data: string) | ErrorMessage(message: string)

  datatype Details = Details(apiError: ApiError, suggestion: string)

  /**
   * The JSON payload of a response. `Tracked` also carries `success: true` and
   * `Failed` carries `error: true`; those constant fields, `processingTime`
   * and `timestamp` are not represented.
   */
  datatype Response =
    | Rejected(error: string, example: string, pattern: string)
    | Tracked(trackingNumber: string, carrier: string, status: string, events: seq<Event>, carrierUsed: string)
    | Failed(statusCode: int, message: string, details: Details, suggestion: Option<string>)

  /** The HTTP status the handler sends with each payload. */
  function HttpStatus(r: Response): int {
    match r
    case Rejected(_, _, _) => 400
    case Tracked(_, _, _, _, _) => 200
    case Failed(code, _, _, _) => code
  }

  /** JavaScript `s || fallback` for an optional string: absent and `""` are falsy. */
  function StringOr(s: Option<string>, fallback: string): (r: string)
    ensures s.Some? && s.value != "" ==> r == s.value
    ensures s.None? || s.value == "" ==> r == fallback
    ensures fallback != "" ==> r != ""
  {
    if s.Some? && s.value != "" then s.value else fallback
  }

  /** What the carrier loop ends with: the first usable body, or the last thrown error. */
  datatype ProbeResult = Found(carrier: string, body: Body) | Exhausted(lastError: Option<UpstreamError>)

  /** The carrier loop (server.js lines 43-70) over the carriers `cs` still to try, with `lastError` so far. */
  function Probe(number: string, cs: seq<string>, upstream: Oracle, lastError: Option<UpstreamError>): (r: ProbeResult)
    ensures r.Found? ==> r.carrier in cs && upstream(number, r.carrier) == Returned(Some(r.body)) && !r.body.errorFlag
    ensures r.Exhausted? ==> forall i :: 0 <= i < |cs| ==> !IsGood(upstream(number, cs[i]))
    decreases |cs|
  {
    if cs == [] then Exhausted(lastError)
    else
      match upstream(number, cs[0])
      case Threw(e) => Probe(number, cs[1..], upstream, Some(e))
      case Returned(data) =>
        if data.Some? && !data.value.errorFlag then Found(cs[0], data.value)
        else Probe(number, cs[1..], upstream, lastError)
  }

  /** The carriers the loop calls, in order: up to and including the first usable one. */
  function Attempts(number: string, cs: seq<string>, upstream: Oracle): (a: seq<string>)
    ensures |a| <= |cs| && a == cs[..|a|]
    ensures a == [] <==> cs == []
    decreases |cs|
  {
    if cs == [] then []
    else if IsGood(upstream(number, cs[0])) then [cs[0]]
    else [cs[0]] + Attempts(number, cs[1..], upstream)
  }

  /**
   * The 400 payload for a missing or malformed number (server.js lines 25-29),
   * as written: its example is one the validator rejects.
   */
  function Rejection(): (r: Response)
    ensures r.Rejected? && HttpStatus(r) == 400
    ensures r.example == DOCUMENTED_EXAMPLE && !IsValidNumber(r.example)
  {
    DocumentedExampleRejected();
    Rejected(INVALID_FORMAT, DOCUMENTED_EXAMPLE, PATTERN_TEXT)
  }

  /** The 400 payload with an example that the validator accepts. */
  function CorrectedRejection(): (r: Response)
    ensures r.Rejected? && HttpStatus(r) == 400
    ensures r.error == INVALID_FORMAT && r.pattern == PATTERN_TEXT
    ensures IsValidNumber(r.example)
  {
    ValidExampleAccepted();
    Rejected(INVALID_FORMAT, VALID_EXAMPLE, PATTERN_TEXT)
  }

  /** The 200 payload built from the first usable body (server.js lines 56-64). */
  function SuccessPayload(number: string, carrier: string, body: Body): (r: Response)
    ensures r.Tracked? && HttpStatus(r) == 200
    ensures r.trackingNumber == number && r.carrier == CARRIER_LABEL && r.carrierUsed == carrier
    ensures r.status != "" && (r.status == DEFAULT_STATUS || body.status == Some(r.status))
    ensures body.status.Some? && body.status.value != "" ==> r.status == body.status.value
    ensures body.status.None? ==> r.status == DEFAULT_STATUS
    ensures body.events.Some? ==> r.events == body.events.value
    ensures body.events.None? ==> r.events == []
  {
    Tracked(number, CARRIER_LABEL, StringOr(body.status, DEFAULT_STATUS),
            body.events.GetOr([]), carrier)
  }

  /** `error.response?.status || 500` */
  function ErrorStatus(e: UpstreamError): (code: int)
    ensures code != 0
    ensures e.response.None? || e.response.value.status == 0 ==> code == 500
    ensures e.response.Some? && e.response.value.status != 0 ==> code == e.response.value.status
  {
    if e.response.Some? && e.response.value.status != 0 then e.response.value.status else 500
  }

  /** `error.response?.data || error.message` */
  function ErrorApiData(e: UpstreamError): (a: ApiError)
    ensures a.ResponseData? <==> e.response.Some? && e.response.value.data.Some? && e.response.value.data.value != ""
    ensures a.ResponseData? ==> e.response.value.data == Some(a.data)
    ensures a.ErrorMessage? ==> a.message == e.message
  {
    if e.response.Some? && StringOr(e.response.value.data, "") != ""
    then ResponseData(e.response.value.data.value)
    else ErrorMessage(e.message)
  }

  /** The error payload (server.js lines 75-94). */
  function ErrorPayload(e: UpstreamError): (r: Response)
    ensures r.Failed? && r.statusCode != 0
    ensures e.response.None? || e.response.value.status == 0 ==> r.statusCode == 500
    ensures r.statusCode == 404 <==> e.response.Some? && e.response.value.status == 404
    ensures r.message == (if r.statusCode == 404 then NOT_FOUND_MESSAGE else GENERIC_MESSAGE)
    ensures r.suggestion == (if r.statusCode == 404 then Some(NOT_FOUND_SUGGESTION) else None)
    ensures r.details.suggestion == GENERIC_SUGGESTION
    ensures e.response.Some? && e.response.value.status != 0 ==> r.statusCode == e.response.value.status
    ensures e.response.Some? && e.response.value.data.Some? && e.response.value.data.value != "" ==>
              r.details.apiError == ResponseData(e.response.value.data.value)
    ensures !(e.response.Some? && e.response.value.data.Some? && e.response.value.data.value != "") ==>
              r.details.apiError == ErrorMessage(e.message)
  {
    var base := Failed(ErrorStatus(e), GENERIC_MESSAGE, Details(ErrorApiData(e), GENERIC_SUGGESTION), None);
    if e.response.Some? && e.response.value.status == 404
    then base.(message := NOT_FOUND_MESSAGE, suggestion := Some(NOT_FOUND_SUGGESTION))
    else base
  }

  /** `throw lastError || new Error(...)` (server.js line 72). */
  function FinalError(lastError: Option<UpstreamError>): (e: UpstreamError)
    ensures lastError.Some? ==> e == lastError.value
    ensures lastError.None? ==> e.response.None? && ErrorStatus(e) == 500 && e.message == ALL_FAILED
  {
    lastError.GetOr(GENERIC_ERROR)
  }

  /** One whole request: what the handler sends for `number` against `upstream`. */
  function Track(number: Option<string>, upstream: Oracle): (r: Response)
    ensures r.Tracked? ==>
              && number == Some(r.trackingNumber)
              && r.carrierUsed in CARRIERS
              && IsGood(upstream(r.trackingNumber, r.carrierUsed))
    ensures r.Failed? ==> number.Some? && IsValidNumber(number.value) && r.statusCode != 0
  {
    if number.None? || !IsValidNumber(number.value) then Rejection()
    else
      match Probe(number.value, CARRIERS, upstream, None)
      case Found(carrier, body) => SuccessPayload(number.value, carrier, body)
      case Exhausted(lastError) => ErrorPayload(FinalError(lastError))
  }

  /** The carrier codes one request sends upstream, in order. */
  function Consulted(number: Option<string>, upstream: Oracle): (c: seq<string>)
    ensures |c| <= |CARRIERS| && c == CARRIERS[..|c|]
    ensures number.None? ==> c == []
  {
    if number.None? || !IsValidNumber(number.value) then []
    else Attempts(number.value, CARRIERS, upstream)
  }

  /**
   * The carrier loop as the source runs it: a `for` over the carrier list, a mutable
   * `lastError` set in the `catch`, an early return on the first usable body.
   * `consulted` records the upstream calls made.
   */
  method ProbeCarriers(number: string, carriers: seq<string>, upstream: Oracle)
    returns (res: ProbeResult, ghost consulted: seq<string>)
    ensures res == Probe(number, carriers, upstream, None)
    ensures consulted == Attempts(number, carriers, upstream)
  {
    var lastError: Option<UpstreamError> := None;
    consulted := [];
    for i := 0 to |carriers|
      invariant Probe(number, carriers[i..], upstream, lastError) == Probe(number, carriers, upstream, None)
      invariant consulted + Attempts(number, carriers[i..], upstream) == Attempts(number, carriers, upstream)
    {
      var carrier := carriers[i];
      var outcome := upstream(number, carrier);
      ghost var rest := carriers[i + 1..];
      assert carriers[i..] == [carrier] + rest;
      assert Attempts(number, carriers[i..], upstream) ==
        if IsGood(outcome) then [carrier] else [carrier] + Attempts(number, rest, upstream);
      consulted := consulted + [carrier];
      match outcome
      case Threw(e) =>
        assert Probe(number, carriers[i..], upstream, lastError) == Probe(number, rest, upstream, Some(e));
        lastError := Some(e);
      case Returned(data) =>
        if data.Some? && !data.value.errorFlag {
          assert Probe(number, carriers[i..], upstream, lastError) == Found(carrier, data.value);
          return Found(carrier, data.value), consulted;
        }
        assert Probe(number, carriers[i..], upstream, lastError) == Probe(number, rest, upstream, lastError);
    }
    return Exhausted(lastError), consulted;
  }


  /** Error normalisation as the source does it: build the record, then patch it for a 404. */
  method NormalizeError(e: UpstreamError) returns (r: Response)
    ensures r == ErrorPayload(e)
  {
    r := Failed(ErrorStatus(e), GENERIC_MESSAGE, Details(ErrorApiData(e), GENERIC_SUGGESTION), None);
    if e.response.Some? && e.response.value.status == 404 {
      r := r.(message := NOT_FOUND_MESSAGE);
      r := r.(suggestion := Some(NOT_FOUND_SUGGESTION));
    }
  }

  /** The `/track` handler. */
  method HandleTrack(number: Option<string>, upstream: Oracle) returns (r: Response, ghost consulted: seq<string>)
    ensures r == Track(number, upstream)
    ensures consulted == Consulted(number, upstream)
  {
    if number.None? || !IsValidNumber(number.value) {
      return Rejection(), [];
    }
    var result;
    result, consulted := ProbeCarriers(number.value, CARRIERS, upstream);
    match result
    case Found(carrier, body) =>
      r := SuccessPayload(number.value, carrier, body);
    case Exhausted(lastError) =>
      r := NormalizeError(FinalError(lastError));
  }
}
