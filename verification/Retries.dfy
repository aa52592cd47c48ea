/** Retrying an operation with exponential backoff on a virtual clock. */
module Retries {

  datatype Attempt<T> = Success(value: T) | Retryable | Fatal

  datatype RetryResult<T> = Returned(value: T) | RaisedExhausted | RaisedFatal | NoAttempts

  datatype Policy = Policy(attempts: int, baseDelay: real, maxDelay: real)

  function PowerOfTwo(n: nat): real { if n == 0 then 1.0 else 2.0 * PowerOfTwo(n - 1) }

  /** The delay planned after attempt `k`; the jitter of an attempt comes from a hash that is not modelled. */
  function Delay(p: Policy, jitter: nat -> real, k: nat): real
    requires k > 0
  {
    var backoff := p.baseDelay * PowerOfTwo(k - 1);
    (if backoff <= p.maxDelay then backoff else p.maxDelay) + jitter(k)
  }

  /** The delays after attempts 1 to `n`. */
  function Delays(p: Policy, jitter: nat -> real, n: nat): seq<real> {
    if n == 0 then [] else Delays(p, jitter, n - 1) + [Delay(p, jitter, n)]
  }

  function Sum(xs: seq<real>): real {
    if xs == [] then 0.0 else Sum(xs[..|xs| - 1]) + xs[|xs| - 1]
  }

  /** The first delay is the base delay, and every later one is twice the one before, up to the largest delay; the
      jitter comes on top. */
  lemma {:induction false} DelayDoubles(p: Policy, jitter: nat -> real, k: nat)
    requires 0.0 <= p.baseDelay && 0.0 <= p.maxDelay && 0 < k
    ensures Delay(p, jitter, 1) - jitter(1) == if p.baseDelay <= p.maxDelay then p.baseDelay else p.maxDelay
    ensures var d, next := Delay(p, jitter, k) - jitter(k), Delay(p, jitter, k + 1) - jitter(k + 1);
            next == if 2.0 * d <= p.maxDelay then 2.0 * d else p.maxDelay
  {
    PowerIsPositive(k - 1);
    assert PowerOfTwo(k) == 2.0 * PowerOfTwo(k - 1);
    hide PowerOfTwo;
    var b := p.baseDelay * PowerOfTwo(k - 1);
    assert p.baseDelay * PowerOfTwo(k) == 2.0 * b;
    assert PowerOfTwo(0) == 1.0 by { PowerIsPositive(0); }
    assert k + 1 - 1 == k;
  }

  lemma {:induction false} PowerIsPositive(n: nat)
    ensures PowerOfTwo(0) == 1.0 && PowerOfTwo(n) >= 1.0
  {
    if n > 0 {
      PowerIsPositive(n - 1);
    }
  }

  /** The delays of the first `n` attempts, one by one. */
  lemma {:induction false} DelaysAre(p: Policy, jitter: nat -> real, n: nat)
    ensures |Delays(p, jitter, n)| == n && forall k: nat | k < n :: Delays(p, jitter, n)[k] == Delay(p, jitter, k + 1)
  {
    if n > 0 {
      DelaysAre(p, jitter, n - 1);
    }
    hide Delay;
  }

  /** The time slept is that of the delays together. */
  lemma {:induction false} SumJoins(xs: seq<real>, ys: seq<real>)
    ensures Sum([]) == 0.0 && (|xs| == 1 ==> Sum(xs) == xs[0]) && Sum(xs + ys) == Sum(xs) + Sum(ys)
    decreases |ys|
  {
    if |xs| == 1 {
      assert xs[..0] == [];
    }
    if ys == [] {
      assert xs + ys == xs;
    } else {
      assert (xs + ys)[..|xs + ys| - 1] == xs + ys[..|ys| - 1];
      SumJoins(xs, ys[..|ys| - 1]);
    }
  }

  class Clock {
    var monotonic: real

    constructor ()
      ensures monotonic == 0.0
    {
      monotonic := 0.0;
    }

    method Advance(seconds: real)
      modifies this
      ensures monotonic == old(monotonic) + seconds
    {
      monotonic := monotonic + seconds;
    }

    method Sleep(seconds: real)
      modifies this
      ensures monotonic == old(monotonic) + seconds
    {
      Advance(seconds);
    }
  }

  /** The counters of an operation, by result, and the delays observed. */
  class Ledger {
    var retry: nat
    var success: nat
    var exhausted: nat
    var fatal: nat
    var observed: seq<real>

    constructor ()
      ensures retry == success == exhausted == fatal == 0 && observed == []
    {
      retry, success, exhausted, fatal, observed := 0, 0, 0, 0, [];
    }
  }

  /** The attempt that decides: the first that is not retryable, or the last one allowed. */
  ghost predicate Decides<T>(calls: nat -> Attempt<T>, attempts: int, k: nat) {
    && 1 <= k <= attempts && (forall j: nat | 1 <= j < k :: calls(j).Retryable?)
    && (k == attempts || !calls(k).Retryable?)
  }

  lemma {:induction false} DecidesOnce<T>(calls: nat -> Attempt<T>, attempts: int, j: nat, k: nat)
    requires Decides(calls, attempts, j) && Decides(calls, attempts, k)
    ensures j == k
  {
    assert j < k ==> calls(j).Retryable?;
    assert k < j ==> calls(k).Retryable?;
  }

  /** Calls the operation until an attempt decides.  `calls(k)` is what call `k` comes to. */
  method Retry<T>(calls: nat -> Attempt<T>, policy: Policy, jitter: nat -> real, clock: Clock, ledger: Ledger)
    returns (r: RetryResult<T>, made: nat)
    modifies clock, ledger
    ensures policy.attempts < 1 ==> r == NoAttempts && made == 0
    ensures policy.attempts >= 1 ==> Decides(calls, policy.attempts, made)
    ensures policy.attempts >= 1 ==>
              r == match calls(made) case Success(v) => Returned(v) case Retryable => RaisedExhausted
                  case Fatal => RaisedFatal
    ensures ledger.success == old(ledger.success) + if r.Returned? then 1 else 0
    ensures ledger.exhausted == old(ledger.exhausted) + if r.RaisedExhausted? then 1 else 0
    ensures ledger.fatal == old(ledger.fatal) + if r.RaisedFatal? then 1 else 0
    ensures var retries := if made == 0 then 0 else made - 1;
            && ledger.retry == old(ledger.retry) + retries
            && ledger.observed == old(ledger.observed) + Delays(policy, jitter, retries)
            && clock.monotonic == old(clock.monotonic) + Sum(Delays(policy, jitter, retries))
  {
    made := 0;
    while made < policy.attempts
      invariant made == 0 || made < policy.attempts
      invariant forall j: nat | 1 <= j <= made :: calls(j).Retryable?
      invariant ledger.success == old(ledger.success) && ledger.exhausted == old(ledger.exhausted)
      invariant ledger.fatal == old(ledger.fatal)
      invariant ledger.retry == old(ledger.retry) + made
      invariant ledger.observed == old(ledger.observed) + Delays(policy, jitter, made)
      invariant clock.monotonic == old(clock.monotonic) + Sum(Delays(policy, jitter, made))
      decreases policy.attempts - made
    {
      made := made + 1;
      var delay := Delay(policy, jitter, made);
      match calls(made) {
        case Success(v) =>
          ledger.success := ledger.success + 1;
          return Returned(v), made;
        case Retryable =>
          if made < policy.attempts {
            ledger.retry := ledger.retry + 1;
            ledger.observed := ledger.observed + [delay];
            clock.Sleep(delay);
          } else {
            ledger.exhausted := ledger.exhausted + 1;
            return RaisedExhausted, made;
          }
        case Fatal =>
          ledger.fatal := ledger.fatal + 1;
          return RaisedFatal, made;
      }
    }
    return NoAttempts, made;
  }
}
