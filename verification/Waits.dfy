/** The two doubling schedules (internal/dispatch/retry.go, poll.go) and the
    retry policy they run under. */
module Waits {
  import opened Prelude

  function Pow2(n: nat): nat { if n == 0 then 1 else 2 * Pow2(n - 1) }

  lemma {:induction false} Pow2Grows(m: nat, n: nat)
    requires m <= n
    ensures 1 <= Pow2(m) <= Pow2(n)
  {
    if n > 0 && m < n {
      Pow2Grows(m, n - 1);
    } else if n > 0 {
      Pow2Grows(0, n - 1);
    }
  }

  /** What a doubling schedule waits after n doublings: the ceiling binds only
      once something has been doubled. */
  function Doubled(initial: nat, max: nat, n: nat): nat {
    if n == 0 then initial else Min(initial * Pow2(n), max)
  }

  /** The documented form, the smaller of initial x 2^n and the ceiling, holds
      for every n exactly when the initial wait is within the ceiling. */
  lemma ClosedForm(initial: nat, max: nat)
    ensures (forall n: nat :: Doubled(initial, max, n) == Min(initial * Pow2(n), max)) <==> initial <= max
  {
    if initial <= max {
      assert forall n: nat :: n == 0 ==> initial * Pow2(n) == initial;
    } else {
      assert Doubled(initial, max, 0) == initial && initial * Pow2(0) == initial;
    }
  }

  lemma Times(a: nat, b: nat, c: nat)
    requires b <= c
    ensures a * b <= a * c
  {
    assert a * (c - b) >= 0;
  }

  /** Waits never shrink, and never pass the ceiling, when the first is within it. */
  lemma WaitsGrow(initial: nat, max: nat, m: nat, n: nat)
    requires initial <= max && m <= n
    ensures Doubled(initial, max, m) <= Doubled(initial, max, n) <= max
  {
    Pow2Grows(m, n);
    Times(initial, Pow2(m), Pow2(n));
    Times(initial, 1, Pow2(n));
  }

  lemma Doubling(initial: nat, i: nat)
    ensures initial * Pow2(i + 1) == 2 * (initial * Pow2(i))
    ensures initial <= initial * Pow2(i)
  {
    Pow2Grows(0, i);
    Times(initial, 1, Pow2(i));
  }

  /** The loop both schedules share; peak is the largest value wait ever held. A
      value of twice the ceiling or more is formed exactly when the first wait is
      already at the ceiling and is doubled, or starts out that large. */
  method Double(initial: nat, max: nat, n: nat) returns (wait: nat, ghost peak: nat)
    requires 0 < initial && 0 < max
    ensures wait == Doubled(initial, max, n)
    ensures wait <= peak && initial <= peak
    ensures peak < 2 * max <==> if n == 0 then initial < 2 * max else initial < max
  {
    wait := initial;
    peak := initial;
    for i := 0 to n
      invariant wait == peak == initial * Pow2(i)
      invariant i > 0 ==> wait < max && initial < max
    {
      Doubling(initial, i);
      wait := wait * 2;
      peak := wait;
      if wait >= max {
        Pow2Grows(i + 1, n);
        Times(initial, Pow2(i + 1), Pow2(n));
        return max, peak;
      }
    }
    Doubling(initial, n);
  }

  /** Poll.interval: how long to wait before the nth status call. */
  method Interval(initial: nat, max: nat, n: nat) returns (wait: nat)
    requires 0 < initial && 0 < max
    ensures wait == Doubled(initial, max, n)
  {
    ghost var peak;
    wait, peak := Double(initial, max, n);
  }

  // ----- retry policy

  datatype Backoff = Backoff(initial: Option<int>, max: Option<int>)

  /** A task's retry block; durations are None when absent or unusable. */
  datatype Retry = Retry(attempts: Option<int>, reroute: Option<bool>, backoff: Option<Backoff>)

  datatype Policy = Policy(attempts: int, reroute: bool, initial: int, max: int)

  const DEFAULT_INITIAL := 5_000_000_000
  const DEFAULT_MAX := 30_000_000_000

  /** A setting is what was declared where that is usable, and the default otherwise. */
  ghost predicate Settles(value: int, declared: Option<int>, default: int) {
    value == if declared.Some? && declared.value > 0 then declared.value else default
  }

  function DeclaredBackoff(retry: Option<Retry>): Backoff {
    if retry.Some? && retry.value.backoff.Some? then retry.value.backoff.value else Backoff(None, None)
  }

  /** retryPolicy: whatever a task declares, at least one attempt and positive waits,
      each usable declaration kept. */
  method RetryPolicy(retry: Option<Retry>) returns (p: Policy)
    ensures p.attempts >= 1 && p.initial > 0 && p.max > 0
    ensures Settles(p.attempts, if retry.Some? then retry.value.attempts else None, 1)
    ensures Settles(p.initial, DeclaredBackoff(retry).initial, DEFAULT_INITIAL)
    ensures Settles(p.max, DeclaredBackoff(retry).max, DEFAULT_MAX)
    ensures p.reroute <==> retry.Some? && retry.value.reroute == Some(true)
  {
    p := Policy(1, false, DEFAULT_INITIAL, DEFAULT_MAX);
    if retry.None? { return; }
    var declared := retry.value;
    if declared.attempts.Some? && declared.attempts.value > 0 {
      p := p.(attempts := declared.attempts.value);
    }
    if declared.reroute.Some? { p := p.(reroute := declared.reroute.value); }
    if declared.backoff.None? { return; }
    var backoff := declared.backoff.value;
    if backoff.initial.Some? && backoff.initial.value > 0 { p := p.(initial := backoff.initial.value); }
    if backoff.max.Some? && backoff.max.value > 0 { p := p.(max := backoff.max.value); }
  }

  /** Without reroute a task gets one provider. */
  function Budget(p: Policy): int {
    if !p.reroute then 1 else p.attempts
  }

  /** policy.backoff: the wait before attempt n, counting from zero; the first
      never waits. */
  method BackoffBefore(p: Policy, attempt: int) returns (wait: nat)
    requires p.initial > 0 && p.max > 0
    ensures attempt < 1 ==> wait == 0
    ensures attempt >= 1 ==> wait == Doubled(p.initial, p.max, attempt - 1)
  {
    if attempt < 1 { return 0; }
    ghost var peak;
    wait, peak := Double(p.initial, p.max, attempt - 1);
  }
}
