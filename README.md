# Pos Malaysia tracking proxy: the `/track` handler in Dafny

This project models the `/track` endpoint of a small Express server. The endpoint
proxies Pos Malaysia tracking requests to the TrackMage aggregation API. For one
request, it:

1. checks the `number` query parameter against the pattern
   `^[A-Za-z]{2}\d{9}[A-Za-z]{2}$`, and answers 400 without calling upstream if
   the number is missing or malformed;
2. calls the upstream API with four carrier codes, strictly in order:
   `pos-malaysia`, `poslaju`, `my-post`, `malaysia-post`. It stops at the first
   call that returns a body that is present and not error-flagged. A call that
   throws is remembered as `lastError`. A call that returns an error body or no
   body is skipped and not remembered;
3. answers 200 with the tracking payload from that body, or turns the final
   error into an error payload. That final error is `lastError`, or a generic
   error if nothing threw. Its HTTP status is the upstream response status, or
   500 if there was none. A 404 gets a dedicated message and a top-level
   `suggestion`.

The upstream HTTP call is replaced by an oracle `(number, carrier) -> Outcome`
(module `Upstream`). With that oracle, one request is fully determined.

Files:

- `wrappers.dfy`: `Option`. It stands for JavaScript's `undefined`/`null`.
- `tracking_format.dfy`: the validator. The regular expression is written as a
  sequence of character classes that is matched character by character.
- `upstream.dfy`: what an upstream call can do (throw, or return a body), and the
  "usable body" test from server.js line 54.
- `track_handler.dfy`: the specification functions for one request (`Probe`,
  `Attempts`, `ErrorPayload`, `Track`). It also holds the handler as the source
  runs it, as methods: `ProbeCarriers` has the `for` loop, the mutable
  `lastError` and the early return. `NormalizeError` builds the error record and
  then patches it for a 404. `HandleTrack` combines the two. Each method is
  proved equal to its function.
- `track_properties.dfy`: lemmas on those functions about the whole request.

JavaScript truthiness is written out. `status || 'Dalam proses'` also
replaces an empty status string. `error.response?.status || 500` also replaces a
status of 0. `error.response?.data || error.message` uses the message when the
body is absent or empty.

## Model

| member | source | states |
|---|---|---|
| `TrackingFormat.IsValidNumber` | server.js:24 | the validator is the anchored match of `[A-Za-z]{2}\d{9}[A-Za-z]{2}`. Anything it accepts has 13 characters, a letter first and a digit third |
| `TrackingFormat.Repeat` | server.js:24 | the quantified class `k{n}` is exactly `n` copies of `k` |
| `TrackingFormat.MatchesFromIff` | server.js:24 | an anchored class-sequence match from a position holds iff the lengths are equal and every character is in its class |
| `TrackingFormat.ValidNumberIff` | server.js:24 | the validator accepts a string iff it has length 13, ASCII letters at positions 0, 1, 11 and 12, and ASCII digits at positions 2 to 10 |
| `TrackingFormat.EmptyRejected` | server.js:24 | the empty string (falsy, so already caught by `!number`) is rejected |
| `TrackingFormat.DocumentedExampleRejected` | server.js:24-27 | the example offered as valid, `ENE083992448MY`, is rejected by the validator (see Findings) |
| `TrackingFormat.ValidExampleAccepted` | server.js:24-28 | the corrected example `EN083992448MY` is accepted by the validator |
| `Upstream.IsGood` | server.js:54 | definition of a usable answer: the call returned, the body is present, and its error flag is not set |
| `TrackHandler.HttpStatus` | server.js:25-91 | definition of the HTTP status sent with each payload: 400 for a rejection (line 25), 200 for a success (line 56, the Express default), the payload's status for an error (line 91) |
| `TrackHandler.StringOr` | server.js:60-79 | JavaScript `s` or a fallback, for an optional string: a present, non-empty `s` is returned unchanged, otherwise the fallback, so a non-empty fallback gives a non-empty result |
| `TrackHandler.Consulted` | server.js:24-52 | the upstream calls one request makes form a prefix of the carrier list. A missing number makes none |
| `TrackHandler.Probe` | server.js:41-72 | the first-match search with a last-thrown accumulator. A found carrier is in the list and returned a body that is present and not error-flagged. An exhausted search found no usable carrier |
| `TrackHandler.Attempts` | server.js:43-70 | the carriers called are a prefix of the list, and at least one is called whenever the list is non-empty |
| `TrackHandler.Rejection` | server.js:25-29 | the 400 payload as written: its example is `ENE083992448MY`, which the validator rejects |
| `TrackHandler.CorrectedRejection` | server.js:25-29 | the same 400 payload with an example the validator accepts (see Findings) |
| `TrackHandler.SuccessPayload` | server.js:56-64 | status 200 with the number, the label `Pos Malaysia` and the carrier used. The status is a present, non-empty upstream status passed through unchanged, and otherwise `Dalam proses`, so it is never empty. The events are the upstream events, or none |
| `TrackHandler.ErrorStatus` | server.js:76 | the response status with 500 as its fallback: 500 when there is no response or its status is 0, otherwise the response's status, so never 0 |
| `TrackHandler.ErrorApiData` | server.js:79 | `details.apiError` is the response body exactly when a response carries a non-empty one, and otherwise the error's message |
| `TrackHandler.FinalError` | server.js:72 | the error the handler throws after the loop is `lastError` if a call threw. Otherwise it is the generic error, which has no response, status 500 and the message `Semua percubaan carrier gagal` |
| `TrackHandler.Track` | server.js:19-96 | one request. A success echoes the number and names a usable carrier from the list. An error answer comes only from a valid number and never has status 0 |
| `TrackHandler.ErrorPayload` | server.js:75-94 | the error payload's status is never 0, and it is 500 when there is no response or the response's status is 0. It is 404 exactly when the upstream response status is 404, and only then are the message the not-found text and the top-level `suggestion` set. `details.suggestion` is always the generic text. With a response, the status is its non-zero status. `apiError` is the response body when one is present and non-empty, and the error message otherwise |
| `TrackHandler.ProbeCarriers` | server.js:34-72 | the loop over the carrier list (the handler passes the four codes), with `lastError` and the early return, yields the first-match result `Probe` and calls exactly the carriers `Attempts` lists |
| `TrackHandler.NormalizeError` | server.js:75-89 | building the record and then patching it for a 404 gives `ErrorPayload` |
| `TrackHandler.HandleTrack` | server.js:19-96 | the handler returns `Track(number, upstream)` and calls exactly `Consulted(number, upstream)` |
| `TrackProperties.LastThrownIsLast` | server.js:66-68 | the reference `LastThrown` is the error thrown at the highest position that threw, and is absent only if no call threw |
| `TrackProperties.LastThrownCons` | server.js:66-68 | read from the front, a later throw hides an earlier one |
| `TrackProperties.ProbeFirstGood` | server.js:43-64 | the first carrier with a usable body is the one the loop returns, together with its body |
| `TrackProperties.ProbeExhausted` | server.js:41-72 | with no usable carrier, the loop ends with the last thrown error, or with its starting `lastError` if nothing threw. Error bodies never change `lastError` |
| `TrackProperties.FirstGoodExists` | server.js:43-54 | if any carrier is usable, a first usable one exists |
| `TrackProperties.AttemptsUnusableBeforeLast` | server.js:43-65 | every call before the last one the loop makes got no usable body |
| `TrackProperties.AttemptsEnd` | server.js:54-72 | when the loop finds a carrier, that carrier is its last call. An exhausted loop calls every carrier |
| `TrackProperties.AttemptsShape` | server.js:43-70 | the calls made are a prefix of the list, and none but the last is usable. The last is usable iff the loop found one, and then it is the carrier found. An exhausted loop calls the whole list |
| `TrackProperties.TrackRejectsIff` | server.js:24-30 | a request is rejected iff the number is missing or malformed. The rejection has status 400 and carries the error text, the pattern text, and the example `ENE083992448MY`, which the validator rejects |
| `TrackProperties.RejectionIgnoresUpstream` | server.js:24-30 | a rejected request makes no upstream call, and its answer does not depend on the upstream |
| `TrackProperties.AttemptsBounded` | server.js:34-43 | carriers are called in list order, at most 4 times, and none after a usable answer |
| `TrackProperties.TrackSucceedsIff` | server.js:43-72 | the response is a success iff some carrier returns a usable body |
| `TrackProperties.TrackFirstGood` | server.js:54-64 | for the first usable carrier: status 200, the number echoed, carrier `Pos Malaysia`, that carrier as `carrierUsed`, the upstream status or `Dalam proses`, the upstream events or the empty sequence, and exactly the carriers up to it called |
| `TrackProperties.TrackedIsFirstGood` | server.js:43-63 | on success, `carrierUsed` is usable, and every carrier before it threw, returned no body, or flagged an error |
| `TrackProperties.TrackAllFailed` | server.js:41-79 | with no usable carrier, all four are called. The answer is the error payload of the most recently thrown error, or of the generic error. Its status is that error's response status, or 500 |
| `TrackProperties.OnlyErrorBodies` | server.js:54-83 | if nothing throws and nothing is usable, the answer is status 500 with the generic message, `apiError` `Semua percubaan carrier gagal` and no top-level suggestion |
| `TrackProperties.TrackNotFoundIff` | server.js:76-93 | in any error answer, the not-found message and the top-level suggestion appear iff the status is 404. `details.suggestion` stays generic and the status is never 0 |
| `TrackProperties.CarriersDistinct` | server.js:34-39 | the four carrier codes are pairwise different |
| `TrackProperties.SoleGoodCarrierUsed` | server.js:34-63 | if exactly one code is usable, it is reported as `carrierUsed` wherever it stands in the list. For `poslaju` exactly two calls are made |

## Left out

- Express, CORS and JSON middleware, static file serving, the `*` catch-all route, `app.listen`, console output and `dotenv` (server.js:1-16, 98-106): framework plumbing.
- The `axios.get` call itself: URL, headers, API key and the 3000 ms timeout (server.js:45-52). It is network I/O. The oracle stands in for it, and a timeout is one more way for a call to throw.
- `processingTime`, `timestamp` and `Date.now()` (server.js:21, 55, 62, 82): wall-clock values, omitted from the payloads. The constant fields `success: true` and `error: true` are implied by the payload's constructor (`Tracked` and `Failed`).
- `async`/`await`: the loop is strictly sequential, so it is modelled synchronously.
- `req.query.number` as an array or other non-string: the input is `Option<string>`.
- Upstream bodies are abstracted. A returned body is its error flag (its truthiness), an optional status string and optional events. A thrown error's response body is an optional string (absent meaning falsy). Non-string statuses are not modelled.
- JavaScript strings are UTF-16 code-unit sequences, and the model's strings are sequences of Unicode scalar values. A character outside the Basic Multilingual Plane is two code units in JavaScript. Such a character is rejected either way, so the validator's verdict is the same.
- `TrackHandler.ProbeCarriers` takes the carrier list as a parameter, where the source loops over a local constant. `TrackHandler.HandleTrack` passes the four codes, so the calls it makes are the source's.
- Repeating a request against an unchanged upstream gives the same answer because `Track` is a function. No separate lemma states this.

## Findings

| source | as written | input that shows it | evidently intended | confidence | as-written member | corrected member |
|---|---|---|---|---|---|---|
| server.js:24-28 | The 400 payload offers `ENE083992448MY` as a valid example, but the validator on line 24 (and the pattern text on line 28) require 2 letters, 9 digits and 2 letters | `ENE083992448MY` has 14 characters and a letter at index 2, so line 24 rejects it | the example offered as valid passes the validator, here `EN083992448MY` | not executed; the mismatch is certain, but whether the example or the pattern should change is a judgement | `TrackProperties.TrackRejectsIff` | `TrackHandler.CorrectedRejection` |

The handler is modelled as written: `TrackHandler.Rejection`, which `TrackHandler.HandleTrack`
returns, offers `ENE083992448MY`. `TrackProperties.TrackRejectsIff` proves that every
rejection offers this example and that the validator rejects it.
`TrackHandler.CorrectedRejection` is the payload with `EN083992448MY`, and its contract
proves that this example passes the validator. The handler does not use it.
