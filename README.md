# ZeroAuth SDK verifier client, modelled in Dafny

The ZeroAuth SDK's `ZeroAuth` class asks a relay to create a verification session, hands
the session's QR payload to an optional `onQR` callback, and then polls the session's
status until it reaches a terminal state. It returns one `VerificationResult`
(`success`, `proof?`, `error?`). This project models that class:

- `results.dfy` (module `Results`): the result record, its fixed error texts, and the
  shape every result has.
- `backoff.dfy` (module `Backoff`): the poll delay schedule. It starts at 2000 ms and each
  reschedule sets `min(delay * 1.5, 10000)`. The float step is written with integers and
  proved exact on every delay the schedule reaches (2000, 3000, 4500, 6750, 10000).
- `polling.dfy` (module `Polling`): the state captured by the `poll` closure
  (`currentDelay`, `networkRetries`, `cancelled`, `startTime`). It has three parts:
  - `PollStep`: one run of the closure as a function of the clock reading and the relay's
    answer.
  - `Run`: the loop over a finite sequence of events. An event is a timer firing, which
    carries the clock and the relay's answer, or a call of the cancel handle.
  - the class `PollSession`: its methods update the captured variables in place. `Poll`
    is proved equal to `PollStep`, and `Drive`, a loop over the events, equal to `Run`.
- `client.dfy` (module `Client`): the `ZeroAuth` class.
  - Its constructor strips one trailing slash from the relay URL.
  - Its `Verify` method applies the option defaults and settles at once on a rejected or
    failed session creation or a throwing `onQR`. Otherwise it drives a `PollSession` over
    the events. It is proved equal to the specification function `VerifySpec`.

The relay, the clock, the `onQR` callback and the cancel handle are inputs. `Verify` receives:
- the clock reading taken at its start;
- the outcome of the creation request: a session, a rejection, or an exception;
- whether `onQR` is absent, returns, or throws;
- the sequence of events after creation.

It reports:
- the creation request it sends;
- the string given to `onQR`;
- the status URL it polls;
- how many status requests it sends;
- the waits it schedules;
- its result, or `None` when the events run out while it is still waiting.

Points where the code may not behave as a reader expects, and which the model follows:
- `startTime` is read before the creation request (src/index.ts:27), not after the session
  is created.
- A `COMPLETED` answer without a `proof` field gives a success whose `proof` is absent. So
  "proof present exactly on success" holds only when the relay sends a proof.
  `Results.WellShaped` states what the code guarantees.
- A status request already in flight when cancel is called is not discarded. `cancelled`
  is read only at the start of an iteration (src/index.ts:62), so a `COMPLETED` answer to
  that request still settles with success.
- The first poll runs synchronously inside `verify`, so no cancel can come before it. The
  model's event sequences allow a cancel anywhere, which includes every order the code
  allows.

## Model

| member | source | states |
|---|---|---|
| Client.StripTrailingSlash | src/index.ts:18 | the result is the URL itself or the URL minus one final `/`, and exactly one character shorter when the URL ends with `/` |
| Client.StripRemovesOneSlash | src/index.ts:18 | for every URL u, normalising u + "/" gives back u, so exactly one of several trailing slashes goes |
| Client.StripKeepsOtherUrls | src/index.ts:18 | a URL not ending with `/` is left unchanged |
| Client.RequestUrlIgnoresTrailingSlash | src/index.ts:18 | the sessions endpoint is the same whether or not the relay URL was given with a trailing slash |
| Client.EffectiveTimeout | src/index.ts:26 | the timeout is 120000 when `timeoutMs` is absent or 0, the given value otherwise, and positive unless a negative value was given |
| Client.CredentialType | src/index.ts:36 | the credential type is never empty: the given one when non-empty, else 'Age Verification' |
| Client.CreationError | src/index.ts:40-42 | a rejected creation reports the relay's `error` when non-empty, else 'Failed to create session' |
| Client.ZeroAuth.constructor | src/index.ts:17-19 | the stored relay URL is the given one with its trailing slash stripped |
| Client.SessionsUrl | src/index.ts:30 | the creation endpoint is the relay URL followed by `/api/v1/sessions` |
| Client.StatusUrl | src/index.ts:73 | a session's status endpoint is the creation endpoint, a `/`, and the session id |
| Client.RequestFor | src/index.ts:30-38 | the creation request goes to the sessions endpoint with the given name and claims; its credential type is the given one when non-empty and 'Age Verification' when absent or empty |
| Client.VerifySpec | src/index.ts:21-117 | every settled result is well shaped; `onQR` gets the payload text exactly when the session was created and a callback given; waits never outnumber status requests, which never outnumber events; without polling the call has settled with no request; polling starts exactly when creation succeeded and `onQR` did not throw |
| Client.ZeroAuth.Verify | src/index.ts:21-117 | the request, QR string, status URL, request count, waits and result are those of `VerifySpec`; it polls through `PollSession.Drive` |
| Client.RejectedCreationSettles | src/index.ts:40-42 | a rejected creation settles at once with the creation error, shows no QR, sends no status request and schedules no wait |
| Client.CreationExceptionSettles | src/index.ts:115-116 | an exception from the creation request or its parsing settles with its message, before any QR or status request |
| Client.ThrowingCallbackSettles | src/index.ts:48-50 | an `onQR` that throws settles the call with the error's message after the payload was handed over, with no status request and no wait |
| Client.VerifyWaitsFollowSchedule | src/index.ts:53-104 | the i-th wait of a call is DelayAt(i) and lies in [2000, 10000], whether PENDING answers or failures caused it |
| Client.SixPendingWaits | src/index.ts:92-95 | six PENDING answers within the default timeout give waits of exactly 2000, 3000, 4500, 6750, 10000, 10000 after six requests, with the call still open |
| Client.CompletedPassesProofThrough | src/index.ts:86-87 | a first answer of COMPLETED with a proof settles with success and that proof, after one request and no wait |
| Client.NegativeTimeoutSettlesAtOnce | src/index.ts:67-70 | a negative `timeoutMs` is not replaced by the default, so the first poll times out without a request |
| Backoff.NextDelay | src/index.ts:95 | the next delay never exceeds 10000, never falls below a delay in [0, 10000], and is 10000 once 1.5 times the delay reaches it |
| Backoff.DelayAt | src/index.ts:53-55 | every delay of the schedule lies in [2000, 10000] |
| Backoff.NextDelayExact | src/index.ts:54-55 | on every scheduled delay the integer step equals the real `min(d * 1.5, 10000)` and stays on the schedule |
| Backoff.DelayAtOnSchedule | src/index.ts:53-55 | every delay of the schedule is on it, lies in [2000, 10000] and is 10000 from the fifth on |
| Backoff.DelayAtMonotone | src/index.ts:103 | the delay never decreases along the schedule |
| Backoff.FirstDelays | src/index.ts:53-55 | the schedule begins 2000, 3000, 4500, 6750, 10000, 10000 |
| Polling.Initial | src/index.ts:53-58 | polling starts with delay 2000, no counted failure, not cancelled, and the given start time |
| Polling.Classify | src/index.ts:73-83 | a reply is a 404 exactly when its code is 404; it is counted as a failure exactly when it is a thrown error, not OK and not 404, or OK with an unparseable body; an OK `null` body is told apart; an OK object body is a status answer with its status and proof |
| Polling.CountFailure | src/index.ts:97-104 | the `catch` branch sets the counter, gives up with 'Too many network failures' exactly when it exceeds 5, and otherwise waits the current delay |
| Polling.Run | src/index.ts:60-108 | the loop that `setTimeout` re-entry forms: waits never outnumber status requests, which never outnumber events; an open loop waited after every request; a settled one sent at most one request more than it waited, and its result is well shaped |
| Polling.PollStep | src/index.ts:61-106 | every settled result is well shaped; a reschedule waits the current delay and grows it; the cancel flag and start time are kept; a request is sent exactly when both checks pass |
| Polling.CancelCheckedFirst | src/index.ts:62-65 | with `cancelled` set, the iteration settles with 'Verification cancelled' and sends no request, whatever the clock or the relay |
| Polling.TimeoutCheckedSecond | src/index.ts:67-70 | when not cancelled, the iteration settles with 'Verification timed out' exactly when elapsed time is strictly greater than the timeout |
| Polling.ChecksPrecedeRequest | src/index.ts:62-73 | when either check fires, the relay's answer has no effect on the iteration |
| Polling.NotFoundIsFinal | src/index.ts:76-78 | a 404 settles with 'Session not found or expired' whatever the failure counter or the delay |
| Polling.FailureCounted | src/index.ts:97-104 | a failure raises the counter by one and settles with 'Too many network failures' exactly when the counter exceeds 5; otherwise it waits the current delay |
| Polling.AnswerResetsRetries | src/index.ts:83-84 | any readable status answer resets the failure counter to 0, whatever the status |
| Polling.NullBodyCountsOnce | src/index.ts:83-98 | an OK reply whose body is `null` resets the counter, fails on reading `status`, and ends with the counter at 1 and a reschedule after the current delay |
| Polling.StatusDispatch | src/index.ts:86-96 | for any OK (2xx) reply read as a status answer: COMPLETED gives success with the proof; EXPIRED gives 'Session expired'; REVOKED gives 'Session revoked by user'; any other status reschedules after the current delay |
| Polling.RunAppend | src/index.ts:94 | running two stretches of events one after the other equals running their concatenation |
| Polling.RunWaitsFollowSchedule | src/index.ts:92-104 | from schedule position k, the i-th wait is DelayAt(k + i), and an open loop's delay is the next one due |
| Polling.RunWaitsBoundedAndSorted | src/index.ts:53-55 | from the initial state every wait lies in [2000, 10000] and the waits never decrease |
| Polling.FailuresExhaustRetries | src/index.ts:97-101 | with the counter at c, 6 - c failures in a row settle with 'Too many network failures' at the last one, after one request each |
| Polling.FewFailuresKeepPolling | src/index.ts:97-104 | fewer failures than that leave the loop polling, with the counter raised by their number |
| Polling.FailureQueries | src/index.ts:73 | each failing poll that passes the checks sends exactly one request |
| Polling.FiveFailuresThenPendingResets | src/index.ts:83-84 | five failures followed by a PENDING answer leave the loop open with the counter back at 0, after six requests |
| Polling.FiveFailuresThenNullBody | src/index.ts:83-104 | five failures followed by an OK `null` body leave the loop polling with the counter at 1 |
| Polling.NotFoundAnywhere | src/index.ts:76-78 | a 404 at any point of an open loop settles it with 'Session not found or expired' |
| Polling.CancelStopsAtNextPoll | src/index.ts:62-65 | a cancel while the loop is open stops it at the next iteration with 'Verification cancelled', adding no request and no wait |
| Polling.CancelDuringRequestIgnored | src/index.ts:62-87 | a cancel made while a status request is in flight does not stop that iteration: a COMPLETED answer to it still settles with success and the proof |
| Polling.PendingKeepsPolling | src/index.ts:92-95 | while the relay answers a non-terminal status within the timeout, each poll sends one request and reschedules, and the counter is 0 |
| Polling.PendingUntilTimeout | src/index.ts:67-70 | after non-terminal answers, the first poll past the timeout settles with 'Verification timed out' without a request |
| Polling.PollSession.constructor | src/index.ts:53-58 | the captured variables start as the initial poll state, with no reschedule yet and the delay the schedule's first entry |
| Polling.PollSession.Cancel | src/index.ts:112 | the cancel handle sets `cancelled` and changes nothing else |
| Polling.PollSession.Reschedule | src/index.ts:94-95 | `setTimeout` with the current delay, then the delay grows to its next schedule entry and one more reschedule is counted |
| Polling.PollSession.Drive | src/index.ts:60-108 | running the closure in place over the events gives the waits, request count and result or open state that `Run` gives, and keeps the delay the schedule's entry for the reschedules made |
| Polling.PollSession.Poll | src/index.ts:61-106 | updating the captured variables in place gives the new state, the action and the request flag that `PollStep` gives; the delay stays the schedule's entry for the reschedules so far |

## Left out

- HTTP and JSON: the `fetch` calls, headers and body serialisation. The relay's answers are
  inputs: a creation reply, and for each poll an HTTP code with a parsed body, or a thrown
  error.
- `setTimeout` and `Date.now`: each poll's clock reading is an input and each wait is an
  output. The model does not require readings to increase or to respect the waits, so it
  states no bound on how far a call can overrun its timeout.
- `JSON.stringify(qr_payload)` and the `onQR` call: the payload is kept as its serialised
  text, and the model records only whether `onQR` receives it.
- The promise and `Object.assign` cancel handle: cancellation is an event in the input
  sequence. The handle is attached to the inner promise, and `verify` is `async`, so
  callers receive a different promise without `cancel`. The model still covers cancels,
  since they are what the handle is for.
- The outer `catch` (src/index.ts:115-116) is modelled for the exceptions it can meet: a
  failed creation request or parse, and a throwing `onQR`. Both settle with the error's
  `message` as a string. A thrown value without a string `message` is not modelled.
- Client.EffectiveTimeout: does not model `NaN` or non-integer `timeoutMs`. JavaScript's
  `||` also replaces `NaN` with the default, and fractional milliseconds only shift the
  timeout comparison.
- Polling.Classify: a parsed object body's `status` is a string, so an object without
  `status` stands for any non-terminal string. Such a body keeps polling, as in the code.
  A JSON `null` body is modelled on its own, since reading `status` off it throws.
- Client.CreationError: the relay's `error` field is taken to be a string or absent. A
  non-string truthy value would be passed through unchanged.
- examples/basic: demo UI (views, QR rendering, alerts) and build configuration, with no
  logic of the SDK.
