/**
 * The poll loop of one `verify` call: the state its `poll` closure captures, one
 * iteration of that closure as a function of an observation, the loop over a finite
 * sequence of observations, and an object whose methods update the captured state in
 * place as the closure does.
 */
module Polling {
  import opened Wrappers
  import opened Results
  import opened Backoff

  const MaxNetworkRetries: nat := 5

  /** The variables the `poll` closure captures. */
  datatype PollState = PollState(currentDelay: int, networkRetries: nat, cancelled: bool, startTime: int)

  /** The state right after the session was created; `startTime` is the clock reading taken by `verify`. */
  function Initial(startTime: int): (s: PollState)
    ensures s.currentDelay == DelayAt(0) && s.networkRetries == 0 && !s.cancelled
    ensures s.startTime == startTime
  {
    PollState(InitialDelay, 0, false, startTime)
  }

  /**
   * The parsed body of a status response: an object with its `status` and `proof`, the JSON
   * value `null` (reading `status` off it throws), or a body whose JSON parsing throws.
   */
  datatype Body = SessionBody(status: string, proof: Option<Json>) | NullBody | Unreadable

  /** What the status request yields: an HTTP reply, or a thrown network error. */
  datatype Response = Reply(code: int, body: Body) | NetworkError

  /** `Response.ok` of the fetch API. */
  predicate IsOk(code: int)
  {
    200 <= code <= 299
  }

  /**
   * How an iteration reads a response: a 404; a failure it counts before reaching the counter
   * reset; an OK `null` body, which resets the counter and then fails on `session.status`; or a
   * session status.
   */
  datatype Reading = NotFound | Transient | NullSession | Answer(status: string, proof: Option<Json>)

  function Classify(r: Response): (reading: Reading)
    ensures reading == NotFound <==> r.Reply? && r.code == 404
    ensures reading == Transient <==>
      r.NetworkError? || (r.code != 404 && !IsOk(r.code)) || (IsOk(r.code) && r.body.Unreadable?)
    ensures reading == NullSession <==> r.Reply? && IsOk(r.code) && r.body.NullBody?
    ensures reading.Answer? <==> r.Reply? && IsOk(r.code) && r.body.SessionBody?
    ensures reading.Answer? ==> reading.status == r.body.status && reading.proof == r.body.proof
  {
    match r
    case NetworkError => Transient
    case Reply(code, body) =>
      if !IsOk(code) then
        if code == 404 then NotFound else Transient
      else
        match body
        case Unreadable => Transient
        case NullBody => NullSession
        case SessionBody(status, proof) => Answer(status, proof)
  }

  /** An iteration either reschedules itself after `wait` ms or resolves the call. */
  datatype Action = Reschedule(wait: int) | Settle(result: VerificationResult)

  /** The captured state after one iteration, what it does next, and whether it sent a status request. */
  datatype Step = Step(next: PollState, action: Action, queried: bool)

  /** The cancellation and timeout checks both let the iteration through to its status request. */
  predicate ChecksPass(s: PollState, timeout: int, now: int)
  {
    !s.cancelled && now - s.startTime <= timeout
  }

  /**
   * One run of the `poll` closure at clock reading `now`; `response` is what the relay
   * answers if the iteration gets as far as asking.
   */
  function PollStep(s: PollState, timeout: int, now: int, response: Response): (st: Step)
    ensures st.action.Settle? ==> WellShaped(st.action.result)
    ensures st.action.Reschedule? ==>
      st.action.wait == s.currentDelay && st.next.currentDelay == NextDelay(s.currentDelay)
    ensures st.action.Settle? ==> st.next.currentDelay == s.currentDelay
    ensures st.next.cancelled == s.cancelled && st.next.startTime == s.startTime
    ensures st.queried == ChecksPass(s, timeout, now)
  {
    if s.cancelled then
      Step(s, Settle(Failed(ErrCancelled)), false)
    else if now - s.startTime > timeout then
      Step(s, Settle(Failed(ErrTimedOut)), false)
    else
      match Classify(response)
      case NotFound =>
        Step(s, Settle(Failed(ErrSessionNotFound)), true)
      case Transient =>
        CountFailure(s, s.networkRetries + 1)
      case NullSession =>
        CountFailure(s, 1)
      case Answer(status, proof) =>
        var answered := s.(networkRetries := 0);
        if status == "COMPLETED" then
          Step(answered, Settle(Succeeded(proof)), true)
        else if status == "EXPIRED" then
          Step(answered, Settle(Failed(ErrSessionExpired)), true)
        else if status == "REVOKED" then
          Step(answered, Settle(Failed(ErrSessionRevoked)), true)
        else
          Step(answered.(currentDelay := NextDelay(s.currentDelay)), Reschedule(s.currentDelay), true)
  }

  /**
   * The `catch` branch: the failure counter becomes `failures`; past 5 the call gives up,
   * otherwise it waits the current delay and grows it.
   */
  function CountFailure(s: PollState, failures: nat): (st: Step)
    ensures st.next.networkRetries == failures && st.queried
    ensures st.action == if failures > MaxNetworkRetries then Settle(Failed(ErrNetworkFailures))
                         else Reschedule(s.currentDelay)
  {
    var failed := s.(networkRetries := failures);
    if failures > MaxNetworkRetries then
      Step(failed, Settle(Failed(ErrNetworkFailures)), true)
    else
      Step(failed.(currentDelay := NextDelay(s.currentDelay)), Reschedule(s.currentDelay), true)
  }

  /** What happens between iterations: the caller cancels, or the timer fires and the next iteration runs. */
  datatype Event = CancelRequested | PollAt(now: int, response: Response)

  /** Where the loop stands: resolved with a result, or waiting for its next iteration. */
  datatype Final = Settled(result: VerificationResult) | Open(state: PollState)

  /** The waits the loop scheduled, the status requests it sent, and where it ended. */
  datatype Trace = Trace(waits: seq<int>, queries: nat, final: Final)

  /** `t` with `waits` and `queries` from earlier iterations put in front. */
  function After(waits: seq<int>, queries: nat, t: Trace): Trace
  {
    Trace(waits + t.waits, queries + t.queries, t.final)
  }

  /**
   * The loop that `setTimeout` re-entry forms, run over a finite sequence of events; events after
   * it resolves are never reached. Each wait follows a status request, and only the iteration
   * that resolves may do without one.
   */
  function Run(s: PollState, timeout: int, events: seq<Event>): (t: Trace)
    ensures |t.waits| <= t.queries <= |events|
    ensures t.final.Open? ==> |t.waits| == t.queries
    ensures t.final.Settled? ==> t.queries <= |t.waits| + 1 && WellShaped(t.final.result)
    decreases |events|
  {
    if events == [] then Trace([], 0, Open(s))
    else
      match events[0]
      case CancelRequested => Run(s.(cancelled := true), timeout, events[1..])
      case PollAt(now, response) =>
        var st := PollStep(s, timeout, now, response);
        var q := if st.queried then 1 else 0;
        match st.action
        case Settle(r) => Trace([], q, Settled(r))
        case Reschedule(w) => After([w], q, Run(st.next, timeout, events[1..]))
  }

  // ---------------------------------------------------------------------------
  // One iteration

  /** `cancelled` is looked at first: it settles without a request, whatever the clock or the relay says. */
  lemma CancelCheckedFirst(s: PollState, timeout: int, now: int, response: Response)
    requires s.cancelled
    ensures PollStep(s, timeout, now, response).action == Settle(Failed(ErrCancelled))
    ensures !PollStep(s, timeout, now, response).queried
  {
  }

  /** Past the cancellation check, the call times out exactly when elapsed time is strictly greater than the timeout. */
  lemma TimeoutCheckedSecond(s: PollState, timeout: int, now: int, response: Response)
    requires !s.cancelled
    ensures PollStep(s, timeout, now, response).action == Settle(Failed(ErrTimedOut))
        <==> now - s.startTime > timeout
  {
  }

  /** Both checks come before the status request: when either fires, the relay's answer plays no part. */
  lemma ChecksPrecedeRequest(s: PollState, timeout: int, now: int, r1: Response, r2: Response)
    requires !ChecksPass(s, timeout, now)
    ensures PollStep(s, timeout, now, r1) == PollStep(s, timeout, now, r2)
  {
  }

  /** A 404 settles at once, whatever the failure counter or the delay. */
  lemma NotFoundIsFinal(s: PollState, timeout: int, now: int, response: Response)
    requires ChecksPass(s, timeout, now) && Classify(response) == NotFound
    ensures PollStep(s, timeout, now, response).action == Settle(Failed(ErrSessionNotFound))
  {
  }

  /**
   * Any other non-OK reply, a thrown error or an unreadable body is counted; the call gives up
   * exactly when the counter exceeds 5 and otherwise waits the current delay and grows it.
   */
  lemma FailureCounted(s: PollState, timeout: int, now: int, response: Response)
    requires ChecksPass(s, timeout, now) && Classify(response) == Transient
    ensures PollStep(s, timeout, now, response).next.networkRetries == s.networkRetries + 1
    ensures PollStep(s, timeout, now, response).action ==
      if s.networkRetries + 1 > MaxNetworkRetries then Settle(Failed(ErrNetworkFailures))
      else Reschedule(s.currentDelay)
  {
  }

  /** Any readable status response resets the failure counter, whatever the status. */
  lemma AnswerResetsRetries(s: PollState, timeout: int, now: int, response: Response)
    requires ChecksPass(s, timeout, now) && Classify(response).Answer?
    ensures PollStep(s, timeout, now, response).next.networkRetries == 0
  {
  }

  /**
   * An OK `null` body resets the counter and then fails reading `status`: the counter ends at 1
   * whatever it was, and the loop waits the current delay.
   */
  lemma NullBodyCountsOnce(s: PollState, timeout: int, now: int, response: Response)
    requires ChecksPass(s, timeout, now) && Classify(response) == NullSession
    ensures PollStep(s, timeout, now, response).next.networkRetries == 1
    ensures PollStep(s, timeout, now, response).action == Reschedule(s.currentDelay)
  {
  }

  /** COMPLETED, EXPIRED and REVOKED settle with their results; every other status keeps polling. */
  lemma StatusDispatch(s: PollState, timeout: int, now: int, response: Response, status: string, proof: Option<Json>)
    requires ChecksPass(s, timeout, now) && Classify(response) == Answer(status, proof)
    ensures var a := PollStep(s, timeout, now, response).action;
      a == (if status == "COMPLETED" then Settle(VerificationResult(true, proof, None))
            else if status == "EXPIRED" then Settle(VerificationResult(false, None, Some(ErrSessionExpired)))
            else if status == "REVOKED" then Settle(VerificationResult(false, None, Some(ErrSessionRevoked)))
            else Reschedule(s.currentDelay))
  {
  }

  // ---------------------------------------------------------------------------
  // The loop

  /** Running two stretches of events one after the other is running their concatenation. */
  lemma {:induction false} RunAppend(s: PollState, timeout: int, a: seq<Event>, b: seq<Event>)
    requires Run(s, timeout, a).final.Open?
    ensures Run(s, timeout, a + b)
      == After(Run(s, timeout, a).waits, Run(s, timeout, a).queries, Run(Run(s, timeout, a).final.state, timeout, b))
    decreases |a|
  {
    if a == [] {
      assert a + b == b;
    } else {
      assert (a + b)[0] == a[0];
      assert (a + b)[1..] == a[1..] + b;
      match a[0]
      case CancelRequested => RunAppend(s.(cancelled := true), timeout, a[1..], b);
      case PollAt(now, response) =>
        var st := PollStep(s, timeout, now, response);
        RunAppend(st.next, timeout, a[1..], b);
        var t := Run(st.next, timeout, a[1..]);
        assert [st.action.wait] + t.waits + Run(t.final.state, timeout, b).waits
            == [st.action.wait] + (t.waits + Run(t.final.state, timeout, b).waits);
    }
  }

  /**
   * The waits follow the delay schedule whatever mixture of pending statuses and failures
   * causes them: the i-th wait after a state at schedule position k is DelayAt(k + i).
   */
  lemma {:induction false} RunWaitsFollowSchedule(s: PollState, timeout: int, events: seq<Event>, k: nat)
    requires s.currentDelay == DelayAt(k)
    ensures var t := Run(s, timeout, events);
      (forall i :: 0 <= i < |t.waits| ==> t.waits[i] == DelayAt(k + i)) &&
      (t.final.Open? ==> t.final.state.currentDelay == DelayAt(k + |t.waits|))
    decreases |events|
  {
    if events != [] {
      match events[0]
      case CancelRequested => RunWaitsFollowSchedule(s.(cancelled := true), timeout, events[1..], k);
      case PollAt(now, response) =>
        var st := PollStep(s, timeout, now, response);
        if st.action.Reschedule? {
          RunWaitsFollowSchedule(st.next, timeout, events[1..], k + 1);
          var t := Run(st.next, timeout, events[1..]);
          assert Run(s, timeout, events).waits == [DelayAt(k)] + t.waits;
        }
    }
  }

  /** From the initial state the waits lie in [2000, 10000] and never decrease. */
  lemma RunWaitsBoundedAndSorted(startTime: int, timeout: int, events: seq<Event>)
    ensures var w := Run(Initial(startTime), timeout, events).waits;
      (forall i :: 0 <= i < |w| ==> InitialDelay <= w[i] <= MaxDelay) &&
      (forall i, j :: 0 <= i <= j < |w| ==> w[i] <= w[j])
  {
    var w := Run(Initial(startTime), timeout, events).waits;
    RunWaitsFollowSchedule(Initial(startTime), timeout, events, 0);
    forall i | 0 <= i < |w| ensures InitialDelay <= w[i] <= MaxDelay {
      DelayAtOnSchedule(i);
    }
    forall i, j | 0 <= i <= j < |w| ensures w[i] <= w[j] {
      DelayAtMonotone(i, j);
    }
  }

  /** A poll event at which the checks pass and the relay's reply is counted as a failure. */
  predicate FailingPoll(s: PollState, timeout: int, e: Event)
  {
    e.PollAt? && e.now - s.startTime <= timeout && Classify(e.response) == Transient
  }

  /**
   * Consecutive failures: with the counter at c, 6 - c failing polls in a row settle with
   * 'Too many network failures' at the last of them, each having sent its request.
   */
  lemma {:induction false} FailuresExhaustRetries(s: PollState, timeout: int, events: seq<Event>)
    requires !s.cancelled && s.networkRetries <= MaxNetworkRetries
    requires |events| == MaxNetworkRetries + 1 - s.networkRetries
    requires forall i :: 0 <= i < |events| ==> FailingPoll(s, timeout, events[i])
    ensures Run(s, timeout, events).final == Settled(Failed(ErrNetworkFailures))
    ensures Run(s, timeout, events).queries == |events|
    ensures |Run(s, timeout, events).waits| == |events| - 1
    decreases |events|
  {
    var st := PollStep(s, timeout, events[0].now, events[0].response);
    if s.networkRetries < MaxNetworkRetries {
      assert forall i :: 0 <= i < |events[1..]| ==> FailingPoll(st.next, timeout, events[1..][i]) by {
        forall i | 0 <= i < |events[1..]| ensures FailingPoll(st.next, timeout, events[1..][i]) {
          assert events[1..][i] == events[i + 1];
        }
      }
      FailuresExhaustRetries(st.next, timeout, events[1..]);
    }
  }

  /** Fewer failures than that leave the loop polling, with the counter raised by their number. */
  lemma {:induction false} FewFailuresKeepPolling(s: PollState, timeout: int, events: seq<Event>)
    requires !s.cancelled
    requires s.networkRetries + |events| <= MaxNetworkRetries
    requires forall i :: 0 <= i < |events| ==> FailingPoll(s, timeout, events[i])
    ensures Run(s, timeout, events).final.Open?
    ensures Run(s, timeout, events).final.state.networkRetries == s.networkRetries + |events|
    ensures Run(s, timeout, events).final.state.startTime == s.startTime
    ensures Run(s, timeout, events).final.state.cancelled == s.cancelled
    decreases |events|
  {
    if events != [] {
      var st := PollStep(s, timeout, events[0].now, events[0].response);
      assert forall i :: 0 <= i < |events[1..]| ==> FailingPoll(st.next, timeout, events[1..][i]) by {
        forall i | 0 <= i < |events[1..]| ensures FailingPoll(st.next, timeout, events[1..][i]) {
          assert events[1..][i] == events[i + 1];
        }
      }
      FewFailuresKeepPolling(st.next, timeout, events[1..]);
    }
  }

  /** Five failures followed by a PENDING answer do not exhaust the retries: the counter is back at 0. */
  lemma FiveFailuresThenPendingResets(startTime: int, timeout: int, failures: seq<Event>, now: int)
    requires |failures| == MaxNetworkRetries
    requires forall i :: 0 <= i < |failures| ==> FailingPoll(Initial(startTime), timeout, failures[i])
    requires now - startTime <= timeout
    ensures var t := Run(Initial(startTime), timeout, failures + [PollAt(now, Reply(200, SessionBody("PENDING", None)))]);
      t.final.Open? && t.final.state.networkRetries == 0 && t.queries == MaxNetworkRetries + 1
  {
    var s := Initial(startTime);
    FewFailuresKeepPolling(s, timeout, failures);
    RunAppend(s, timeout, failures, [PollAt(now, Reply(200, SessionBody("PENDING", None)))]);
    var t := Run(s, timeout, failures);
    assert t.queries == MaxNetworkRetries by {
      FailureQueries(s, timeout, failures);
    }
  }

  /** Five failures followed by an OK reply with a `null` body keep polling with the counter at 1. */
  lemma FiveFailuresThenNullBody(startTime: int, timeout: int, failures: seq<Event>, now: int, code: int)
    requires |failures| == MaxNetworkRetries && IsOk(code)
    requires forall i :: 0 <= i < |failures| ==> FailingPoll(Initial(startTime), timeout, failures[i])
    requires now - startTime <= timeout
    ensures var t := Run(Initial(startTime), timeout, failures + [PollAt(now, Reply(code, NullBody))]);
      t.final.Open? && t.final.state.networkRetries == 1
  {
    var s := Initial(startTime);
    FewFailuresKeepPolling(s, timeout, failures);
    RunAppend(s, timeout, failures, [PollAt(now, Reply(code, NullBody))]);
  }

  /** Each failing poll the checks let through sends exactly one request. */
  lemma {:induction false} FailureQueries(s: PollState, timeout: int, events: seq<Event>)
    requires !s.cancelled
    requires s.networkRetries + |events| <= MaxNetworkRetries
    requires forall i :: 0 <= i < |events| ==> FailingPoll(s, timeout, events[i])
    ensures Run(s, timeout, events).queries == |events|
    decreases |events|
  {
    if events != [] {
      var st := PollStep(s, timeout, events[0].now, events[0].response);
      assert forall i :: 0 <= i < |events[1..]| ==> FailingPoll(st.next, timeout, events[1..][i]) by {
        forall i | 0 <= i < |events[1..]| ensures FailingPoll(st.next, timeout, events[1..][i]) {
          assert events[1..][i] == events[i + 1];
        }
      }
      FailureQueries(st.next, timeout, events[1..]);
    }
  }

  /** A 404 at any point of a run still open settles it with 'Session not found or expired'. */
  lemma NotFoundAnywhere(s: PollState, timeout: int, before: seq<Event>, now: int, response: Response, after: seq<Event>)
    requires Run(s, timeout, before).final.Open?
    requires ChecksPass(Run(s, timeout, before).final.state, timeout, now)
    requires Classify(response) == NotFound
    ensures Run(s, timeout, before + [PollAt(now, response)] + after).final == Settled(Failed(ErrSessionNotFound))
  {
    assert before + [PollAt(now, response)] + after == before + ([PollAt(now, response)] + after);
    RunAppend(s, timeout, before, [PollAt(now, response)] + after);
  }

  /**
   * Cancelling while the loop is open stops it at the next iteration, with 'Verification
   * cancelled' and no further status request.
   */
  lemma CancelStopsAtNextPoll(s: PollState, timeout: int, before: seq<Event>, now: int, response: Response, after: seq<Event>)
    requires Run(s, timeout, before).final.Open?
    ensures var t := Run(s, timeout, before + [CancelRequested, PollAt(now, response)] + after);
      t.final == Settled(Failed(ErrCancelled)) &&
      t.queries == Run(s, timeout, before).queries &&
      t.waits == Run(s, timeout, before).waits
  {
    var tail := [CancelRequested, PollAt(now, response)] + after;
    assert before + [CancelRequested, PollAt(now, response)] + after == before + tail;
    RunAppend(s, timeout, before, tail);
    assert tail[1..] == [PollAt(now, response)] + after;
    assert tail[1..][1..] == after;
  }

  /**
   * A cancel while a status request is in flight does not discard its answer: `cancelled` is
   * read only at the start of an iteration, so a COMPLETED answer still settles with success.
   */
  lemma CancelDuringRequestIgnored(s: PollState, timeout: int, now: int, code: int, proof: Option<Json>, rest: seq<Event>)
    requires ChecksPass(s, timeout, now) && IsOk(code)
    ensures Run(s, timeout, [PollAt(now, Reply(code, SessionBody("COMPLETED", proof))), CancelRequested] + rest).final
      == Settled(VerificationResult(true, proof, None))
  {
    assert ([PollAt(now, Reply(code, SessionBody("COMPLETED", proof))), CancelRequested] + rest)[0]
      == PollAt(now, Reply(code, SessionBody("COMPLETED", proof)));
  }

  /** An open poll event whose relay answer is a non-terminal status. */
  predicate PendingPoll(timeout: int, startTime: int, e: Event)
  {
    e.PollAt? && e.now - startTime <= timeout &&
    Classify(e.response).Answer? &&
    Classify(e.response).status !in ["COMPLETED", "EXPIRED", "REVOKED"]
  }

  /** While the relay answers with a non-terminal status within the timeout, every poll asks once and reschedules. */
  lemma {:induction false} PendingKeepsPolling(s: PollState, timeout: int, pending: seq<Event>)
    requires !s.cancelled
    requires forall i :: 0 <= i < |pending| ==> PendingPoll(timeout, s.startTime, pending[i])
    ensures var t := Run(s, timeout, pending);
      t.final.Open? && t.queries == |pending| && |t.waits| == |pending| && t.final.state.networkRetries == (if pending == [] then s.networkRetries else 0)
    decreases |pending|
  {
    if pending != [] {
      var e := pending[0];
      var st := PollStep(s, timeout, e.now, e.response);
      assert forall i :: 0 <= i < |pending[1..]| ==> PendingPoll(timeout, st.next.startTime, pending[1..][i]) by {
        forall i | 0 <= i < |pending[1..]| ensures PendingPoll(timeout, st.next.startTime, pending[1..][i]) {
          assert pending[1..][i] == pending[i + 1];
        }
      }
      PendingKeepsPolling(st.next, timeout, pending[1..]);
    }
  }

  /**
   * While the relay keeps answering with a non-terminal status, the loop keeps polling; the first
   * iteration that finds the timeout passed settles with 'Verification timed out' and asks nothing.
   */
  lemma {:induction false} PendingUntilTimeout(s: PollState, timeout: int, pending: seq<Event>, now: int, response: Response)
    requires !s.cancelled
    requires forall i :: 0 <= i < |pending| ==> PendingPoll(timeout, s.startTime, pending[i])
    requires now - s.startTime > timeout
    ensures var t := Run(s, timeout, pending + [PollAt(now, response)]);
      t.final == Settled(Failed(ErrTimedOut)) && t.queries == |pending| && |t.waits| == |pending|
    decreases |pending|
  {
    if pending == [] {
      assert pending + [PollAt(now, response)] == [PollAt(now, response)];
    } else {
      var e := pending[0];
      var st := PollStep(s, timeout, e.now, e.response);
      assert (pending + [PollAt(now, response)])[1..] == pending[1..] + [PollAt(now, response)];
      assert forall i :: 0 <= i < |pending[1..]| ==> PendingPoll(timeout, st.next.startTime, pending[1..][i]) by {
        forall i | 0 <= i < |pending[1..]| ensures PendingPoll(timeout, st.next.startTime, pending[1..][i]) {
          assert pending[1..][i] == pending[i + 1];
        }
      }
      PendingUntilTimeout(st.next, timeout, pending[1..], now, response);
    }
  }

  // ---------------------------------------------------------------------------
  // The captured variables, updated in place

  /** The variables one `verify` call's `poll` closure captures and updates. */
  class PollSession {
    var currentDelay: int
    var networkRetries: nat
    var cancelled: bool
    const startTime: int
    const timeout: int
    /** How many times the closure has rescheduled itself so far. */
    ghost var reschedules: nat

    /** The captured variables as a value. */
    function State(): PollState
      reads this
    {
      PollState(currentDelay, networkRetries, cancelled, startTime)
    }

    /** The delay is the schedule's entry for the number of reschedules so far. */
    ghost predicate Valid()
      reads this
    {
      currentDelay == DelayAt(reschedules)
    }

    constructor (startTime: int, timeout: int)
      ensures Valid() && reschedules == 0
      ensures State() == Initial(startTime) && this.timeout == timeout
    {
      currentDelay := InitialDelay;
      networkRetries := 0;
      cancelled := false;
      this.startTime := startTime;
      this.timeout := timeout;
      reschedules := 0;
    }

    /** The caller's cancel handle: sets the flag, which only the next iteration reads. */
    method Cancel()
      requires Valid()
      modifies this
      ensures Valid() && reschedules == old(reschedules)
      ensures State() == old(State()).(cancelled := true)
    {
      cancelled := true;
    }

    /** Waits the current delay and then grows it: the closure's `setTimeout` and the line after it. */
    method Reschedule() returns (action: Action)
      requires Valid()
      modifies this`currentDelay, this`reschedules
      ensures Valid() && reschedules == old(reschedules) + 1
      ensures action == Action.Reschedule(old(currentDelay)) && currentDelay == NextDelay(old(currentDelay))
    {
      action := Action.Reschedule(currentDelay);
      currentDelay := NextDelay(currentDelay);
      reschedules := reschedules + 1;
    }

    /**
     * The loop that `setTimeout` re-entry forms: runs the closure on each timer firing and
     * applies each cancel, until the call resolves or the events run out.
     */
    method Drive(events: seq<Event>) returns (waits: seq<int>, queries: nat, result: Option<VerificationResult>)
      requires Valid()
      modifies this
      ensures Valid() && reschedules == old(reschedules) + |waits|
      ensures Run(old(State()), timeout, events)
        == Trace(waits, queries, if result.Some? then Settled(result.value) else Open(State()))
    {
      ghost var spec := Run(State(), timeout, events);
      ghost var start := reschedules;
      waits, queries, result := [], 0, None;
      var i := 0;
      while i < |events| && result.None?
        invariant 0 <= i <= |events|
        invariant Valid() && reschedules == start + |waits|
        invariant result.None? ==> spec == After(waits, queries, Run(State(), timeout, events[i..]))
        invariant result.Some? ==> spec == Trace(waits, queries, Settled(result.value))
        decreases |events| - i
      {
        assert events[i..][1..] == events[i + 1..];
        match events[i] {
          case CancelRequested =>
            Cancel();
          case PollAt(now, response) =>
            var action, queried := Poll(now, response);
            if queried {
              queries := queries + 1;
            }
            match action {
              case Settle(r) =>
                result := Some(r);
              case Reschedule(w) =>
                waits := waits + [w];
            }
        }
        i := i + 1;
      }
      if result.None? {
        assert events[i..] == [];
      }
    }

    /** One run of the `poll` closure; `response` is what the status request would return. */
    method Poll(now: int, response: Response) returns (action: Action, queried: bool)
      requires Valid()
      modifies this
      ensures Valid()
      ensures reschedules == old(reschedules) + (if action.Reschedule? then 1 else 0)
      ensures Step(State(), action, queried) == PollStep(old(State()), timeout, now, response)
    {
      if cancelled {
        return Settle(Failed(ErrCancelled)), false;
      }
      if now - startTime > timeout {
        return Settle(Failed(ErrTimedOut)), false;
      }
      queried := true;
      var reading := Classify(response);
      if reading.NotFound? {
        return Settle(Failed(ErrSessionNotFound)), queried;
      }
      if reading.Answer? {
        networkRetries := 0;
        if reading.status == "COMPLETED" {
          return Settle(Succeeded(reading.proof)), queried;
        } else if reading.status == "EXPIRED" {
          return Settle(Failed(ErrSessionExpired)), queried;
        } else if reading.status == "REVOKED" {
          return Settle(Failed(ErrSessionRevoked)), queried;
        }
        action := Reschedule();
        return;
      }
      // the catch branch; a null body has reset the counter before it fails
      if reading.NullSession? {
        networkRetries := 0;
      }
      networkRetries := networkRetries + 1;
      if networkRetries > MaxNetworkRetries {
        action := Settle(Failed(ErrNetworkFailures));
      } else {
        action := Reschedule();
      }
    }
  }
}
