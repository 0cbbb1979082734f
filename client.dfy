/**
 * The `ZeroAuth` client: relay URL normalisation, the defaults `verify` applies to its
 * options, session creation and the poll loop that follows it. The relay, the clock and
 * the caller's cancel handle are inputs: the relay's answer to the creation request, and
 * the sequence of events the loop meets.
 */
module Client {
  import opened Wrappers
  import opened Results
  import opened Backoff
  import opened Polling

  const DefaultTimeout: int := 120000
  const DefaultCredentialType: string := "Age Verification"

  /** `url.replace(/\/$/, '')`: drops one `/` at the very end, if there is one. */
  function StripTrailingSlash(url: string): (r: string)
    ensures r == url || r + "/" == url
    ensures |url| > 0 && url[|url| - 1] == '/' ==> |r| == |url| - 1
  {
    if |url| > 0 && url[|url| - 1] == '/' then url[..|url| - 1] else url
  }

  /** Exactly one trailing slash goes, even when there are several. */
  lemma StripRemovesOneSlash(url: string)
    ensures StripTrailingSlash(url + "/") == url
  {
  }

  /** A URL that does not end with `/` is kept as it is. */
  lemma StripKeepsOtherUrls(url: string)
    requires url == [] || url[|url| - 1] != '/'
    ensures StripTrailingSlash(url) == url
  {
  }

  /** `options.timeoutMs || 120000`: an absent or zero timeout means two minutes. */
  function EffectiveTimeout(timeoutMs: Option<int>): (r: int)
    ensures timeoutMs.None? || timeoutMs == Some(0) ==> r == DefaultTimeout
    ensures timeoutMs.Some? && timeoutMs.value != 0 ==> r == timeoutMs.value
    ensures (timeoutMs.None? || timeoutMs.value >= 0) ==> r > 0
  {
    match timeoutMs
    case None => DefaultTimeout
    case Some(t) => if t == 0 then DefaultTimeout else t
  }

  /** `options.credential_type || 'Age Verification'`: never empty. */
  function CredentialType(credentialType: Option<string>): (r: string)
    ensures r != ""
    ensures credentialType.Some? && credentialType.value != "" ==> r == credentialType.value
    ensures credentialType.None? || credentialType == Some("") ==> r == DefaultCredentialType
  {
    match credentialType
    case None => DefaultCredentialType
    case Some(c) => if c == "" then DefaultCredentialType else c
  }

  /** `errData.error || 'Failed to create session'`: the relay's own error text when it gave a non-empty one. */
  function CreationError(relayError: Option<string>): (r: string)
    ensures r != ""
    ensures relayError.Some? && relayError.value != "" ==> r == relayError.value
    ensures relayError.None? || relayError == Some("") ==> r == ErrCreateFailed
  {
    match relayError
    case None => ErrCreateFailed
    case Some(e) => if e == "" then ErrCreateFailed else e
  }

  /** The options `verify` takes; an absent optional field is `None`. */
  datatype VerifyOptions = VerifyOptions(
    verifierName: string,
    requiredClaims: seq<string>,
    credentialType: Option<string>,
    timeoutMs: Option<int>)

  /** The session-creation request: where it is sent and the JSON body it carries. */
  datatype SessionRequest = SessionRequest(url: string, verifierName: string, requiredClaims: seq<string>, credentialType: string)

  /**
   * The outcome of the creation request: a session; a non-OK reply with its optional `error`;
   * or an exception (the request or the parsing of its JSON threw) with its `message`.
   */
  datatype CreationReply =
    | Created(sessionId: string, qrPayload: Json)
    | Rejected(relayError: Option<string>)
    | CreationThrew(message: string)

  /** The optional `onQR` callback: absent, returning normally, or throwing an error with `message`. */
  datatype QrCallback = NoCallback | Callback | ThrowingCallback(message: string)

  /**
   * What one `verify` call does: the creation request it sends, the string it hands to `onQR`,
   * the status URL it polls, the status requests and waits of its loop, and its result; `None`
   * while the loop is still waiting when the events run out.
   */
  datatype Report = Report(
    request: SessionRequest,
    qrShown: Option<string>,
    statusUrl: Option<string>,
    statusQueries: nat,
    waits: seq<int>,
    result: Option<VerificationResult>)

  /** The creation endpoint: the relay URL followed by the sessions path. */
  function SessionsUrl(relayUrl: string): (r: string)
    ensures |r| == |relayUrl| + 16
    ensures r[..|relayUrl|] == relayUrl && r[|relayUrl|..] == "/api/v1/sessions"
  {
    relayUrl + "/api/v1/sessions"
  }

  /** The status endpoint of one session: the creation endpoint, a `/`, and the session id. */
  function StatusUrl(relayUrl: string, sessionId: string): (r: string)
    ensures |r| == |SessionsUrl(relayUrl)| + 1 + |sessionId|
    ensures r[..|SessionsUrl(relayUrl)|] == SessionsUrl(relayUrl)
    ensures r[|SessionsUrl(relayUrl)|..] == "/" + sessionId
  {
    SessionsUrl(relayUrl) + "/" + sessionId
  }

  /** The creation request: the given name and claims, the credential type defaulted. */
  function RequestFor(relayUrl: string, options: VerifyOptions): (r: SessionRequest)
    ensures r.url == SessionsUrl(relayUrl)
    ensures r.verifierName == options.verifierName && r.requiredClaims == options.requiredClaims
    ensures r.credentialType != "" && r.credentialType == CredentialType(options.credentialType)
    ensures options.credentialType.Some? && options.credentialType.value != "" ==>
      r.credentialType == options.credentialType.value
    ensures options.credentialType.None? || options.credentialType == Some("") ==>
      r.credentialType == DefaultCredentialType
  {
    SessionRequest(SessionsUrl(relayUrl), options.verifierName, options.requiredClaims, CredentialType(options.credentialType))
  }

  /**
   * The specification of `verify`: create the session, hand its payload to `onQR`, then run the
   * poll loop from its initial state. An exception before the loop starts is caught and
   * returned as the error.
   */
  function VerifySpec(relayUrl: string, options: VerifyOptions, onQR: QrCallback, startTime: int,
                      creation: CreationReply, events: seq<Event>): (rep: Report)
    ensures rep.request == RequestFor(relayUrl, options)
    ensures rep.result.Some? ==> WellShaped(rep.result.value)
    ensures rep.qrShown.Some? <==> creation.Created? && !onQR.NoCallback?
    ensures rep.qrShown.Some? ==> rep.qrShown.value == creation.qrPayload.text
    ensures |rep.waits| <= rep.statusQueries <= |events|
    ensures rep.statusUrl.None? ==> rep.result.Some? && rep.statusQueries == 0 && rep.waits == []
    ensures rep.statusUrl.Some? <==> creation.Created? && !onQR.ThrowingCallback?
  {
    var request := RequestFor(relayUrl, options);
    match creation
    case Rejected(relayError) =>
      Report(request, None, None, 0, [], Some(Failed(CreationError(relayError))))
    case CreationThrew(message) =>
      Report(request, None, None, 0, [], Some(Failed(message)))
    case Created(sessionId, payload) =>
      match onQR
      case ThrowingCallback(message) =>
        Report(request, Some(payload.text), None, 0, [], Some(Failed(message)))
      case _ =>
        var t := Run(Initial(startTime), EffectiveTimeout(options.timeoutMs), events);
        Report(request, if onQR.Callback? then Some(payload.text) else None, Some(StatusUrl(relayUrl, sessionId)),
               t.queries, t.waits, if t.final.Settled? then Some(t.final.result) else None)
  }

  /** The SDK's entry point, bound to one relay. */
  class ZeroAuth {
    const relayUrl: string

    constructor (relayUrl: string)
      ensures this.relayUrl == StripTrailingSlash(relayUrl)
    {
      this.relayUrl := StripTrailingSlash(relayUrl);
    }

    /**
     * `verify`: `startTime` is the clock reading taken before the creation request, `creation`
     * the relay's answer to it, `events` what happens afterwards (timer firings with the clock
     * and the relay's status answer, and calls of the cancel handle).
     */
    method Verify(options: VerifyOptions, onQR: QrCallback, startTime: int, creation: CreationReply, events: seq<Event>)
      returns (report: Report)
      ensures report == VerifySpec(relayUrl, options, onQR, startTime, creation, events)
    {
      var timeout := EffectiveTimeout(options.timeoutMs);
      var request := RequestFor(relayUrl, options);
      if creation.Rejected? {
        return Report(request, None, None, 0, [], Some(Failed(CreationError(creation.relayError))));
      }
      if creation.CreationThrew? {
        return Report(request, None, None, 0, [], Some(Failed(creation.message)));
      }
      var qrShown := if onQR.NoCallback? then None else Some(creation.qrPayload.text);
      if onQR.ThrowingCallback? {
        return Report(request, qrShown, None, 0, [], Some(Failed(onQR.message)));
      }
      var session := new PollSession(startTime, timeout);
      var waits, queries, result := session.Drive(events);
      report := Report(request, qrShown, Some(StatusUrl(relayUrl, creation.sessionId)), queries, waits, result);
    }
  }

  // ---------------------------------------------------------------------------
  // Properties of `verify`

  /** Normalisation makes the request URL the same whether or not the relay URL had a trailing slash. */
  lemma RequestUrlIgnoresTrailingSlash(url: string)
    requires url == [] || url[|url| - 1] != '/'
    ensures SessionsUrl(StripTrailingSlash(url + "/")) == SessionsUrl(StripTrailingSlash(url))
    ensures SessionsUrl(StripTrailingSlash(url)) == url + "/api/v1/sessions"
  {
  }

  /** A rejected creation settles at once: no QR, no status request, the relay's error or the generic one. */
  lemma RejectedCreationSettles(relayUrl: string, options: VerifyOptions, onQR: QrCallback, startTime: int,
                                relayError: Option<string>, events: seq<Event>)
    ensures var rep := VerifySpec(relayUrl, options, onQR, startTime, Rejected(relayError), events);
      rep.result == Some(Failed(CreationError(relayError))) &&
      rep.qrShown.None? && rep.statusQueries == 0 && rep.waits == []
  {
  }

  /** A failed creation request settles with its exception's message, before any QR or status request. */
  lemma CreationExceptionSettles(relayUrl: string, options: VerifyOptions, onQR: QrCallback, startTime: int,
                                 message: string, events: seq<Event>)
    ensures var rep := VerifySpec(relayUrl, options, onQR, startTime, CreationThrew(message), events);
      rep.result == Some(Failed(message)) && rep.qrShown.None? && rep.statusQueries == 0
  {
  }

  /** An `onQR` that throws ends the call with the error's message: the payload was shown, nothing is polled. */
  lemma ThrowingCallbackSettles(relayUrl: string, options: VerifyOptions, message: string, startTime: int,
                                sessionId: string, payload: Json, events: seq<Event>)
    ensures var rep := VerifySpec(relayUrl, options, ThrowingCallback(message), startTime, Created(sessionId, payload), events);
      rep.result == Some(Failed(message)) && rep.qrShown == Some(payload.text) &&
      rep.statusQueries == 0 && rep.waits == []
  {
  }

  /** The waits of one call are 2000, 3000, 4500, 6750, 10000, 10000, ... whatever caused them. */
  lemma VerifyWaitsFollowSchedule(relayUrl: string, options: VerifyOptions, onQR: QrCallback, startTime: int,
                                  creation: CreationReply, events: seq<Event>)
    ensures var w := VerifySpec(relayUrl, options, onQR, startTime, creation, events).waits;
      forall i :: 0 <= i < |w| ==> w[i] == DelayAt(i) && InitialDelay <= w[i] <= MaxDelay
  {
    if creation.Created? {
      var w := VerifySpec(relayUrl, options, onQR, startTime, creation, events).waits;
      RunWaitsFollowSchedule(Initial(startTime), EffectiveTimeout(options.timeoutMs), events, 0);
      forall i | 0 <= i < |w| ensures InitialDelay <= w[i] <= MaxDelay {
        DelayAtOnSchedule(i);
      }
    }
  }

  /** A PENDING answer at clock reading `now` with the relay's proof absent. */
  function PendingAt(now: int): Event
  {
    PollAt(now, Reply(200, SessionBody("PENDING", None)))
  }

  /** Six PENDING answers within the timeout are followed by waits of exactly 2000, 3000, 4500, 6750, 10000 and 10000 ms. */
  lemma SixPendingWaits(relayUrl: string, options: VerifyOptions, onQR: QrCallback, startTime: int,
                        sessionId: string, payload: Json)
    requires options.timeoutMs.None?
    requires !onQR.ThrowingCallback?
    ensures var rep := VerifySpec(relayUrl, options, onQR, startTime, Created(sessionId, payload),
                                  [PendingAt(startTime), PendingAt(startTime + 2000), PendingAt(startTime + 5000),
                                   PendingAt(startTime + 9500), PendingAt(startTime + 16250), PendingAt(startTime + 26250)]);
      rep.waits == [2000, 3000, 4500, 6750, 10000, 10000] && rep.result.None? && rep.statusQueries == 6
  {
    var events := [PendingAt(startTime), PendingAt(startTime + 2000), PendingAt(startTime + 5000),
                   PendingAt(startTime + 9500), PendingAt(startTime + 16250), PendingAt(startTime + 26250)];
    var timeout := EffectiveTimeout(options.timeoutMs);
    assert forall i :: 0 <= i < |events| ==> PendingPoll(timeout, startTime, events[i]);
    PendingKeepsPolling(Initial(startTime), timeout, events);
    RunWaitsFollowSchedule(Initial(startTime), timeout, events, 0);
    FirstDelays();
    var w := Run(Initial(startTime), timeout, events).waits;
    assert w == [w[0], w[1], w[2], w[3], w[4], w[5]];
  }

  /** A first answer of COMPLETED yields success with the relay's proof, after one request and no wait. */
  lemma CompletedPassesProofThrough(relayUrl: string, options: VerifyOptions, onQR: QrCallback, startTime: int,
                                    sessionId: string, payload: Json, proof: Json, rest: seq<Event>)
    requires options.timeoutMs.None? || options.timeoutMs.value >= 0
    requires !onQR.ThrowingCallback?
    ensures var rep := VerifySpec(relayUrl, options, onQR, startTime, Created(sessionId, payload),
                                  [PollAt(startTime, Reply(200, SessionBody("COMPLETED", Some(proof))))] + rest);
      rep.result == Some(VerificationResult(true, Some(proof), None)) && rep.statusQueries == 1 && rep.waits == []
  {
  }

  /** A negative `timeoutMs` is kept as given, so the first poll already finds the call timed out. */
  lemma NegativeTimeoutSettlesAtOnce(relayUrl: string, options: VerifyOptions, onQR: QrCallback, startTime: int,
                                     sessionId: string, payload: Json, now: int, response: Response, rest: seq<Event>)
    requires options.timeoutMs.Some? && options.timeoutMs.value < 0
    requires now >= startTime
    requires !onQR.ThrowingCallback?
    ensures var rep := VerifySpec(relayUrl, options, onQR, startTime, Created(sessionId, payload),
                                  [PollAt(now, response)] + rest);
      rep.result == Some(Failed(ErrTimedOut)) && rep.statusQueries == 0
  {
  }
}
