/**
 Bounded retry with capped exponential backoff: which call decides the result, and how long the
 caller can be kept waiting.
 */
module Retry {
  import opened Text

  /** The third constructor stands for every error without a status: connection, timeout, name lookup. */
  datatype Outcome<T> = Success(value: T) | Status(code: nat) | Transport(error: string)

  datatype Policy = Policy(maxAttempts: nat, baseDelayMs: nat, maxDelayMs: nat)

  predicate Retryable<T>(o: Outcome<T>) {
    match o
    case Success(_) => false
    case Status(code) => code == 429 || code == 500 || code == 502 || code == 503 || code == 504
    case Transport(_) => true
  }

  function Max(a: nat, b: nat): nat {
    if a >= b then a else b
  }

  function PowerOfTwo(n: nat): nat {
    if n == 0 then 1 else 2 * PowerOfTwo(n - 1)
  }

  /** The delay before jitter: doubling from the base, at most six times, saturating at 64 bits, capped, at least 1. */
  function Capped(policy: Policy, attempt: nat): nat {
    var shift := if attempt == 0 then 0 else if attempt - 1 <= 6 then attempt - 1 else 6;
    var exp := policy.baseDelayMs * PowerOfTwo(shift);
    var saturated := if exp < U64_LIMIT then exp else U64_LIMIT - 1;
    Max(if saturated <= policy.maxDelayMs then saturated else policy.maxDelayMs, 1)
  }

  /** `backoff_ms`, the clock's nanoseconds being `seed`. */
  function Backoff(policy: Policy, attempt: nat, seed: nat): nat {
    var half := Capped(policy, attempt) / 2;
    half + seed % Max(half, 1)
  }

  /** Jitter keeps every backoff between half the capped delay and the capped delay. */
  lemma {:induction false} BackoffRange(policy: Policy, attempt: nat, seed: nat)
    ensures Capped(policy, attempt) / 2 <= Backoff(policy, attempt, seed) <= Capped(policy, attempt)
    ensures Backoff(policy, attempt, seed) <= Max(1, policy.maxDelayMs)
  {
    var half := Capped(policy, attempt) / 2;
    assert seed % Max(half, 1) < Max(half, 1);
  }

  /** The delays before jitter never shrink from one attempt to the next. */
  lemma {:induction false} CappedGrows(policy: Policy, a: nat, b: nat)
    requires a <= b
    ensures Capped(policy, a) <= Capped(policy, b)
  {
    var shift := (n: nat) => if n == 0 then 0 else if n - 1 <= 6 then n - 1 else 6;
    PowerGrows(shift(a), shift(b));
    Scaled(policy.baseDelayMs, PowerOfTwo(shift(a)), PowerOfTwo(shift(b)));
  }

  /** Before jitter the delay doubles with each of the first seven retries, up to the cap, and then stays. */
  lemma CappedDoubles(policy: Policy, attempt: nat)
    requires policy.baseDelayMs > 0 && policy.maxDelayMs < U64_LIMIT
    ensures Capped(policy, 1) == Least(policy.baseDelayMs, Max(1, policy.maxDelayMs))
    ensures 1 <= attempt < 7 ==>
              Capped(policy, attempt + 1) == Least(2 * Capped(policy, attempt), Max(1, policy.maxDelayMs))
    ensures attempt >= 7 ==> Capped(policy, attempt) == Capped(policy, 7)
  {
    ClampedIs(policy, 1);
    if 1 <= attempt < 7 {
      ClampedIs(policy, attempt);
      ClampedIs(policy, attempt + 1);
      Doubled(policy.baseDelayMs, PowerOfTwo(attempt - 1));
      LeastDoubled(policy.baseDelayMs * PowerOfTwo(attempt - 1), Max(1, policy.maxDelayMs));
    }
  }

  function Least(a: nat, b: nat): nat {
    if a <= b then a else b
  }

  lemma ClampedIs(policy: Policy, attempt: nat)
    requires policy.baseDelayMs > 0 && policy.maxDelayMs < U64_LIMIT && 1 <= attempt <= 7
    ensures var e := policy.baseDelayMs * PowerOfTwo(attempt - 1);
            e > 0 && Capped(policy, attempt) == Least(e, Max(1, policy.maxDelayMs))
  {
    PowerGrows(0, attempt - 1);
    Scaled(policy.baseDelayMs, 1, PowerOfTwo(attempt - 1));
  }

  lemma Doubled(k: nat, p: nat)
    ensures k * (2 * p) == 2 * (k * p)
  {
  }

  lemma LeastDoubled(e: nat, most: nat)
    ensures Least(2 * e, most) == Least(2 * Least(e, most), most)
  {
  }

  lemma {:induction false} PowerGrows(m: nat, n: nat)
    requires m <= n
    ensures PowerOfTwo(m) <= PowerOfTwo(n)
  {
    if m < n {
      PowerGrows(m, n - 1);
    }
  }

  lemma Scaled(k: nat, x: nat, y: nat)
    requires x <= y
    ensures k * x <= k * y
  {
  }

  /** After call `k` the loop goes on. */
  predicate GoesOn<T>(policy: Policy, op: nat -> Outcome<T>, k: nat) {
    Retryable(op(k)) && k < policy.maxAttempts
  }

  /** Call `n` decides: the loop goes on after every call before it, and not after it. */
  predicate Decides<T>(policy: Policy, op: nat -> Outcome<T>, n: nat) {
    1 <= n && !GoesOn(policy, op, n) && forall k :: 1 <= k < n ==> GoesOn(policy, op, k)
  }

  function Waited(policy: Policy, clock: nat -> nat, attempts: nat): nat {
    if attempts == 0 then 0 else Waited(policy, clock, attempts - 1) + Backoff(policy, attempts, clock(attempts))
  }

  /** `with_retry`: `op(k)` is what the k-th call returns, `clock(k)` the seed at the k-th backoff. */
  method WithRetry<T>(policy: Policy, op: nat -> Outcome<T>, clock: nat -> nat)
    returns (result: Outcome<T>, calls: nat, waitedMs: nat)
    ensures Decides(policy, op, calls) && result == op(calls)
    ensures waitedMs == Waited(policy, clock, calls - 1)
  {
    calls, waitedMs := 0, 0;
    while true
      invariant forall k :: 1 <= k <= calls ==> GoesOn(policy, op, k)
      invariant waitedMs == Waited(policy, clock, calls)
      invariant calls <= policy.maxAttempts
      decreases policy.maxAttempts - calls
    {
      calls := calls + 1;
      result := op(calls);
      if result.Success? || calls >= policy.maxAttempts || !Retryable(result) {
        return;
      }
      waitedMs := waitedMs + Backoff(policy, calls, clock(calls));
    }
  }

  lemma Accumulates(sum: nat, more: nat, n: nat, d: nat)
    requires n > 0 && sum <= (n - 1) * d && more <= d
    ensures sum + more <= n * d
  {
  }

  lemma {:induction false} WaitBound(policy: Policy, clock: nat -> nat, attempts: nat)
    ensures Waited(policy, clock, attempts) <= attempts * Max(1, policy.maxDelayMs)
  {
    if attempts > 0 {
      WaitBound(policy, clock, attempts - 1);
      BackoffRange(policy, attempts, clock(attempts));
      Accumulates(Waited(policy, clock, attempts - 1), Backoff(policy, attempts, clock(attempts)), attempts,
                  Max(1, policy.maxDelayMs));
    }
  }

  /** The deciding call is unique and within `max(1, max_attempts)` calls, sooner unless it too could be retried. */
  lemma OneCallDecides<T>(policy: Policy, op: nat -> Outcome<T>, n: nat, m: nat)
    requires Decides(policy, op, n)
    ensures n <= Max(1, policy.maxAttempts)
    ensures Decides(policy, op, m) ==> m == n
    ensures Retryable(op(n)) ==> n == Max(1, policy.maxAttempts)
  {
    assert n > 1 ==> GoesOn(policy, op, n - 1);
  }

  /** The failures that pass: any without a status, too many requests, and four server errors. */
  const TRANSIENT_CODES: set<nat> := {429, 500, 502, 503, 504}

  ghost predicate Transient<T>(o: Outcome<T>) {
    o.Transport? || (o.Status? && o.code in TRANSIENT_CODES)
  }

  /** Every call before the deciding one failed transiently; that one did not, or was the last allowed. */
  lemma RetriedIff<T>(policy: Policy, op: nat -> Outcome<T>, n: nat, k: nat)
    requires Decides(policy, op, n) && 1 <= k <= n
    ensures k < n <==> Transient(op(k)) && k < policy.maxAttempts
  {
    if k < n {
      assert GoesOn(policy, op, k);
    }
  }

  /** All the waiting before it takes at most one capped delay per retry allowed. */
  lemma WaitIsBounded<T>(policy: Policy, op: nat -> Outcome<T>, clock: nat -> nat, n: nat)
    requires Decides(policy, op, n)
    ensures Waited(policy, clock, n - 1) <= (Max(1, policy.maxAttempts) - 1) * Max(1, policy.maxDelayMs)
  {
    OneCallDecides(policy, op, n, n);
    WaitBound(policy, clock, n - 1);
    FewerTimes(n - 1, Max(1, policy.maxAttempts) - 1, Max(1, policy.maxDelayMs));
  }

  lemma FewerTimes(x: nat, y: nat, d: nat)
    requires x <= y
    ensures x * d <= y * d
  {
  }
}
