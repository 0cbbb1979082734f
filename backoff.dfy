/**
 * The poll delay schedule: it starts at 2000 ms and after every reschedule becomes
 * `Math.min(currentDelay * 1.5, 10000)`. On the delays the schedule reaches the product
 * is a whole number, so integer arithmetic gives the floating-point value exactly.
 */
module Backoff {

  const InitialDelay: int := 2000
  const MaxDelay: int := 10000

  /** `Math.min(d * 1.5, MaxDelay)`, written with integers. */
  function NextDelay(d: int): (r: int)
    ensures r <= MaxDelay
    ensures 0 <= d <= MaxDelay ==> d <= r
    ensures d >= 0 && 3 * d >= 2 * MaxDelay ==> r == MaxDelay
  {
    if d * 3 / 2 < MaxDelay then d * 3 / 2 else MaxDelay
  }

  /** The delay in force before the n-th reschedule of one `verify` call. */
  function DelayAt(n: nat): (r: int)
    ensures InitialDelay <= r <= MaxDelay
  {
    if n == 0 then InitialDelay else NextDelay(DelayAt(n - 1))
  }

  /** The delays the schedule can reach. */
  predicate OnSchedule(d: int)
  {
    d == 2000 || d == 3000 || d == 4500 || d == 6750 || d == 10000
  }

  function RealMin(x: real, y: real): real
  {
    if x <= y then x else y
  }

  /** On the schedule, the integer step equals the floating-point `Math.min(d * 1.5, 10000)`. */
  lemma NextDelayExact(d: int)
    requires OnSchedule(d)
    ensures NextDelay(d) as real == RealMin(d as real * 1.5, MaxDelay as real)
    ensures OnSchedule(NextDelay(d))
  {
  }

  /** Every delay the schedule produces is on it, lies in [2000, 10000] and is 10000 from the fifth on. */
  lemma {:induction false} DelayAtOnSchedule(n: nat)
    ensures OnSchedule(DelayAt(n))
    ensures InitialDelay <= DelayAt(n) <= MaxDelay
    ensures n >= 4 ==> DelayAt(n) == MaxDelay
  {
    if n > 0 {
      DelayAtOnSchedule(n - 1);
      NextDelayExact(DelayAt(n - 1));
    }
  }

  /** The delay never decreases. */
  lemma {:induction false} DelayAtMonotone(m: nat, n: nat)
    requires m <= n
    ensures DelayAt(m) <= DelayAt(n)
  {
    if m < n {
      DelayAtMonotone(m, n - 1);
      DelayAtOnSchedule(n - 1);
    }
  }

  /** The first waits: 2000, 3000, 4500, 6750, then 10000 for good. */
  lemma FirstDelays()
    ensures DelayAt(0) == 2000 && DelayAt(1) == 3000 && DelayAt(2) == 4500
    ensures DelayAt(3) == 6750 && DelayAt(4) == 10000 && DelayAt(5) == 10000
  {
  }
}
