/** Timers, and the delays of a retried call. */
module Timing {
  import opened SnowballTypes

  datatype TimeoutState = Active | Inactive | Expired

  /** Measures how long ago it was started; clock readings are arguments. */
  class Timeout {
    var state: TimeoutState
    const duration: nat
    var start: int

    constructor (duration: nat, now: int)
      ensures state == Inactive && this.duration == duration && start == now
    {
      this.state, this.duration, this.start := Inactive, duration, now;
    }

    /** A copy, so that checking it leaves this timer as it is. */
    method Clone() returns (t: Timeout)
      ensures fresh(t) && t.state == state && t.duration == duration && t.start == start
    {
      t := new Timeout(duration, start);
      t.state := state;
    }

    /** The timer has expired, or an active one has run for longer than its duration. */
    predicate Overdue(now: int)
      reads this
    {
      state == Expired || (state == Active && now - start > duration)
    }

    method CheckExpired(now: int) returns (expired: bool)
      modifies this`state
      ensures expired == old(Overdue(now))
      ensures state == if expired then Expired else old(state)
    {
      if state == Active && now - start > duration {
        state := Expired;
      }
      expired := state == Expired;
    }

    method Start(now: int)
      modifies this
      ensures state == Active && start == now
      ensures forall t :: Overdue(t) <==> t - now > duration
    {
      state, start := Active, now;
    }

    method Stop(now: int)
      modifies this
      ensures state == Inactive && start == now
      ensures forall t :: !Overdue(t)
    {
      state, start := Inactive, now;
    }

    method IsActive() returns (active: bool)
      ensures active <==> state == Active
    {
      active := state == Active;
    }
  }

  // ---------- Exponential backoff ----------

  // Durations in nanoseconds: 64-bit seconds and a fraction below one second.
  const DURATION_MAX: nat := 0x1_0000_0000_0000_0000 * 1_000_000_000 - 1

  type Duration = d: nat | d <= DURATION_MAX

  // The longest duration given in 64-bit milliseconds.
  const MILLIS_MAX: Duration := 0xFFFF_FFFF_FFFF_FFFF * 1_000_000

  // The first duration whose double overflows.
  const OVERFLOW_FROM: Duration := 0x1_0000_0000_0000_0000 * 500_000_000

  datatype Result<T, E> = Ok(value: T) | Err(error: E)

  function CheckedDouble(d: Duration): Option<Duration> {
    if 2 * d <= DURATION_MAX then Some(2 * d) else None
  }

  function NextDelay(delay: Duration, max: Duration): Duration {
    if delay < max then
      var doubled := match CheckedDouble(delay) case Some(d) => d case None => MILLIS_MAX;
      if doubled > max then max else doubled
    else delay
  }

  /** The sleep after the n-th failure, counting from 0. */
  function DelayAfter(base: Duration, max: Duration, n: nat): Duration {
    if n == 0 then base else NextDelay(DelayAfter(base, max, n - 1), max)
  }

  function Pow2(n: nat): nat {
    if n == 0 then 1 else 2 * Pow2(n - 1)
  }

  function Min(a: nat, b: nat): nat {
    if a <= b then a else b
  }

  /** Doubling the n-th delay overflows, so that the fallback is taken. */
  predicate FallsBack(base: Duration, max: Duration, n: nat) {
    var delay := DelayAfter(base, max, n);
    delay < max && CheckedDouble(delay) == None
  }

  lemma Doubling(d: Duration, max: Duration)
    requires d <= max <= OVERFLOW_FROM
    ensures NextDelay(d, max) == Min(2 * d, max)
    ensures !(d < max && CheckedDouble(d) == None)
  {
  }

  /** base doubled n times. */
  function Doubled(base: nat, n: nat): nat {
    if n == 0 then base else 2 * Doubled(base, n - 1)
  }

  lemma {:induction false} DoubledIsPow2(base: nat, n: nat)
    ensures Doubled(base, n) == base * Pow2(n)
  {
    if n > 0 {
      DoubledIsPow2(base, n - 1);
    }
  }

  lemma {:induction false} DelayDoubles(base: Duration, max: Duration, n: nat)
    requires base <= max <= OVERFLOW_FROM
    ensures DelayAfter(base, max, n) == Min(Doubled(base, n), max)
  {
    if n > 0 {
      DelayDoubles(base, max, n - 1);
      Doubling(DelayAfter(base, max, n - 1), max);
    }
  }

  lemma {:induction false} DelayStays(base: Duration, max: Duration, n: nat)
    requires base > max
    ensures DelayAfter(base, max, n) == base
  {
    if n > 0 {
      DelayStays(base, max, n - 1);
    }
  }

  lemma DelayStart(base: Duration, max: Duration)
    ensures DelayAfter(base, max, 0) == base
  {
  }

  lemma DelayStep(base: Duration, max: Duration, n: nat)
    ensures DelayAfter(base, max, n + 1) == NextDelay(DelayAfter(base, max, n), max)
  {
  }

  /** Delays double up to the maximum; a base above the maximum is used unchanged. */
  lemma DelayClosedForm(base: Duration, max: Duration, n: nat)
    requires max <= OVERFLOW_FROM
    ensures DelayAfter(base, max, n) == if base > max then base else Min(base * Pow2(n), max)
    ensures !FallsBack(base, max, n)
  {
    if base > max {
      DelayStays(base, max, n);
    } else {
      DelayDoubles(base, max, n);
      DoubledIsPow2(base, n);
      Doubling(DelayAfter(base, max, n), max);
    }
  }

  /** The delays never decrease, and never exceed the maximum exactly when the base does not. */
  lemma DelaysAreBounded(base: Duration, max: Duration)
    requires max <= OVERFLOW_FROM
    ensures forall n: nat :: DelayAfter(base, max, n) <= DelayAfter(base, max, n + 1)
    ensures base <= max <==> forall n: nat :: DelayAfter(base, max, n) <= max
  {
    forall n: nat
      ensures DelayAfter(base, max, n) <= DelayAfter(base, max, n + 1)
      ensures base <= max ==> DelayAfter(base, max, n) <= max
    {
      DelayClosedForm(base, max, n);
      assert DelayAfter(base, max, n + 1) == NextDelay(DelayAfter(base, max, n), max);
    }
    assert DelayAfter(base, max, 0) == base;
  }

  /** The fallback is unreachable for every base exactly up to half the longest duration. */
  lemma FallbackUnreachableExactly(max: Duration)
    ensures max <= OVERFLOW_FROM
            <==> forall base: Duration, n: nat :: base <= max ==> !FallsBack(base, max, n)
    ensures MILLIS_MAX <= OVERFLOW_FROM
    ensures max > OVERFLOW_FROM ==> DelayAfter(OVERFLOW_FROM, max, 1) < DelayAfter(OVERFLOW_FROM, max, 0)
  {
    if max <= OVERFLOW_FROM {
      forall base: Duration, n: nat
        ensures !FallsBack(base, max, n)
      {
        DelayClosedForm(base, max, n);
      }
    } else {
      assert FallsBack(OVERFLOW_FROM, max, 0);
      assert DelayAfter(OVERFLOW_FROM, max, 1) == NextDelay(DelayAfter(OVERFLOW_FROM, max, 0), max);
    }
  }

  /**
   * Calls until the first success. `attempts` are the results the callback would give; `sleeps`
   * records the delays slept through.
   */
  method RetryUntilOk<T, E>(base: Duration, max: Duration, attempts: seq<Result<T, E>>)
    returns (res: T, sleeps: seq<Duration>)
    requires exists i :: 0 <= i < |attempts| && attempts[i].Ok?
    ensures |sleeps| < |attempts| && attempts[|sleeps|] == Ok(res)
    ensures forall i :: 0 <= i < |sleeps| ==> attempts[i].Err? && sleeps[i] == DelayAfter(base, max, i)
  {
    DelayStart(base, max);
    hide DelayAfter, NextDelay;
    var delay := base;
    sleeps := [];
    ghost var success :| 0 <= success < |attempts| && attempts[success].Ok?;
    while attempts[|sleeps|].Err?
      invariant |sleeps| <= success
      invariant forall i :: 0 <= i < |sleeps| ==> attempts[i].Err? && sleeps[i] == DelayAfter(base, max, i)
      invariant delay == DelayAfter(base, max, |sleeps|)
      decreases success - |sleeps|
    {
      sleeps := sleeps + [delay];
      delay := BackOff(delay, max);
      DelayStep(base, max, |sleeps| - 1);
    }
    res := attempts[|sleeps|].value;
  }

  /** The delay to use after a failure that slept for `slept`. */
  method BackOff(slept: Duration, max: Duration) returns (delay: Duration)
    ensures delay == NextDelay(slept, max)
  {
    delay := slept;
    if delay < max {
      var doubled := CheckedDouble(delay);
      delay := if doubled.Some? then doubled.value else MILLIS_MAX;
      if delay > max {
        delay := max;
      }
    }
  }
}
