/** Retrying with exponential backoff (utils/retry.py). Delays are whole
    milliseconds and the exponential base a whole number; the random draw
    behind the jitter is a parameter, a per-mille value in [0, 1000). */
module Retry {
  import opened Wrappers

  function Pow(b: nat, e: nat): nat
  {
    if e == 0 then 1 else b * Pow(b, e - 1)
  }

  function Min(a: int, b: int): int
  {
    if a <= b then a else b
  }

  /** `calculate_backoff` without jitter: the base delay times the
      exponential base to the attempt, capped at the maximum delay. */
  function Backoff(attempt: nat, baseDelay: nat, maxDelay: nat, exponentialBase: nat): (d: nat)
    ensures d <= maxDelay
    ensures d == maxDelay || d == baseDelay * Pow(exponentialBase, attempt)
    ensures d <= baseDelay * Pow(exponentialBase, attempt)
  {
    Min(baseDelay * Pow(exponentialBase, attempt), maxDelay)
  }

  /** `calculate_backoff` with jitter: the delay times 0.75 + draw/2000,
      rounded down. */
  function Jittered(delay: nat, draw: nat): (d: nat)
    requires draw < 1000
  {
    delay * (1500 + draw) / 2000
  }

  /** The jittered delay lies between 0.75 and 1.25 times the delay (up to
      the rounding to whole milliseconds). */
  lemma JitterBounds(delay: nat, draw: nat)
    requires draw < 1000
    ensures 4 * Jittered(delay, draw) + 4 > 3 * delay
    ensures 4 * Jittered(delay, draw) <= 5 * delay
  {
    var j := Jittered(delay, draw);
    assert 2000 * j <= delay * (1500 + draw) < 2000 * j + 2000;
    assert delay * (1500 + draw) >= delay * 1500;
    assert delay * (1500 + draw) <= delay * 2500;
  }

  lemma {:induction false} PowMonotone(b: nat, e: nat)
    requires b >= 1
    ensures Pow(b, e) <= Pow(b, e + 1)
  {
    assert Pow(b, e + 1) == b * Pow(b, e);
  }

  /** With a base of at least 1, delays never shrink from one attempt to
      the next. */
  lemma BackoffMonotone(attempt: nat, baseDelay: nat, maxDelay: nat, exponentialBase: nat)
    requires exponentialBase >= 1
    ensures Backoff(attempt, baseDelay, maxDelay, exponentialBase) <=
            Backoff(attempt + 1, baseDelay, maxDelay, exponentialBase)
  {
    PowMonotone(exponentialBase, attempt);
    assert baseDelay * Pow(exponentialBase, attempt) <= baseDelay * Pow(exponentialBase, attempt + 1);
  }

  /** With a one-second base and doubling: 1 s, 2 s, 4 s, 8 s, and 30 s
      once capped at 30 s. */
  lemma BackoffExamples()
    ensures Backoff(0, 1000, 60000, 2) == 1000
    ensures Backoff(1, 1000, 60000, 2) == 2000
    ensures Backoff(2, 1000, 60000, 2) == 4000
    ensures Backoff(3, 1000, 60000, 2) == 8000
    ensures Backoff(10, 1000, 30000, 2) == 30000
  {
    assert Pow(2, 10) == 1024;
  }

  datatype RetryConfig = RetryConfig(
    maxAttempts: int,
    baseDelay: nat,
    maxDelay: nat,
    exponentialBase: nat,
    jitter: bool)

  /** The delay before the retry that follows failed attempt `attempt`
      (0-based); `draw` is the random per-mille draw for the jitter. */
  function RetryDelay(cfg: RetryConfig, attempt: nat, draw: nat): nat
  {
    var d := Backoff(attempt, cfg.baseDelay, cfg.maxDelay, cfg.exponentialBase);
    if cfg.jitter then Jittered(d, draw % 1000) else d
  }

  /** An exception: its type name and message. */
  datatype Exc = Exc(typeName: string, message: string)

  /** What one call of the wrapped function does. */
  datatype Outcome<T> = Returned(value: T) | Raised(exc: Exc)

  /** What the `retry` wrapper does in the end. */
  datatype RetryResult<T> =
    | Ok(value: T)
    | Propagated(exc: Exc)
    | RetryError(attempts: int, lastException: Option<Exc>)

  /** One `on_retry(attempt, exception, delay)` callback. */
  datatype RetryNote = RetryNote(attempt: nat, exc: Exc, delay: nat)

  /** The wrapper of the `retry` decorator: `call(k)` is what the k-th
      call (0-based) of the function does, `retryable` the
      `retryable_exceptions` test and `draws(k)` the jitter draw after the
      k-th failure. Returns the outcome, the number of calls made and the
      `on_retry` callbacks made, in order. */
  method RetryCall<T>(cfg: RetryConfig, call: nat -> Outcome<T>, retryable: Exc -> bool, draws: nat -> nat)
    returns (result: RetryResult<T>, calls: nat, notes: seq<RetryNote>)
    ensures calls <= (if cfg.maxAttempts > 0 then cfg.maxAttempts else 0)
    ensures cfg.maxAttempts > 0 ==> calls >= 1
    ensures forall k :: 0 <= k < calls - 1 ==> call(k).Raised? && retryable(call(k).exc)
    ensures |notes| == (if calls > 0 then calls - 1 else 0)
    ensures forall k :: 0 <= k < |notes| ==>
      notes[k] == RetryNote(k + 1, call(k).exc, RetryDelay(cfg, k, draws(k)))
    ensures result.Ok? <==> calls >= 1 && call(calls - 1).Returned?
    ensures result.Ok? ==> result.value == call(calls - 1).value
    ensures result.Propagated? <==> calls >= 1 && call(calls - 1).Raised? && !retryable(call(calls - 1).exc)
    ensures result.Propagated? ==> result.exc == call(calls - 1).exc
    ensures result.RetryError? ==> result.attempts == cfg.maxAttempts
    ensures result.RetryError? && cfg.maxAttempts > 0 ==>
      && calls == cfg.maxAttempts
      && call(calls - 1).Raised? && retryable(call(calls - 1).exc)
      && result.lastException == Some(call(calls - 1).exc)
    ensures cfg.maxAttempts <= 0 ==> result == RetryError(cfg.maxAttempts, None) && calls == 0
  {
    var lastException: Option<Exc> := None;
    notes := [];
    calls := 0;
    var attempt := 0;
    while attempt < cfg.maxAttempts
      invariant attempt == 0 || attempt < cfg.maxAttempts
      invariant calls == attempt
      invariant forall k :: 0 <= k < attempt ==> call(k).Raised? && retryable(call(k).exc)
      invariant |notes| == attempt
      invariant forall k :: 0 <= k < attempt ==> notes[k] == RetryNote(k + 1, call(k).exc, RetryDelay(cfg, k, draws(k)))
      invariant attempt == 0 ==> lastException == None
    {
      var outcome := call(attempt);
      calls := calls + 1;
      if outcome.Returned? {
        return Ok(outcome.value), calls, notes;
      }
      if !retryable(outcome.exc) {
        return Propagated(outcome.exc), calls, notes;
      }
      lastException := Some(outcome.exc);
      if attempt == cfg.maxAttempts - 1 {
        return RetryError(cfg.maxAttempts, Some(outcome.exc)), calls, notes;
      }
      var delay := RetryDelay(cfg, attempt, draws(attempt));
      notes := notes + [RetryNote(attempt + 1, outcome.exc, delay)];
      attempt := attempt + 1;
    }
    result := RetryError(cfg.maxAttempts, lastException);
  }

  /** `RetryContext`: counts failed attempts until one succeeds or the
      attempts run out. */
  class RetryContext {
    const maxAttempts: int
    var attempt: nat
    var succeeded: bool
    var lastException: Option<Exc>

    constructor (maxAttempts: int)
      ensures this.maxAttempts == maxAttempts
      ensures attempt == 0 && !succeeded && lastException == None
    {
      this.maxAttempts := maxAttempts;
      attempt := 0;
      succeeded := false;
      lastException := None;
    }

    /** `should_retry` */
    method ShouldRetry() returns (r: bool)
      ensures r == MayRetry(succeeded, attempt, maxAttempts)
    {
      if succeeded {
        return false;
      }
      if attempt >= maxAttempts {
        return false;
      }
      return true;
    }

    /** `success`: the attempt count is left as it is. */
    method Success()
      modifies this
      ensures succeeded && attempt == old(attempt) && lastException == old(lastException)
    {
      succeeded := true;
    }

    /** `failed`: records the exception and counts the attempt; returns
        the delay slept before the next attempt, if one remains. */
    method Failed(exc: Exc, cfg: RetryConfig, draw: nat) returns (delay: Option<nat>)
      modifies this
      ensures attempt == old(attempt) + 1 && lastException == Some(exc) && succeeded == old(succeeded)
      ensures delay == if attempt < maxAttempts then Some(RetryDelay(cfg, attempt - 1, draw)) else None
    {
      lastException := Some(exc);
      attempt := attempt + 1;
      if attempt < maxAttempts {
        delay := Some(RetryDelay(cfg, attempt - 1, draw));
      } else {
        delay := None;
      }
    }

    /** `raise_if_exhausted`: the RetryError raised, if any. */
    method RaiseIfExhausted() returns (error: Option<RetryResult<()>>)
      ensures error.Some? <==> Exhausted(succeeded, attempt, maxAttempts)
      ensures error.Some? ==> error.value == RetryError(maxAttempts, lastException)
    {
      if !succeeded && attempt >= maxAttempts {
        return Some(RetryError(maxAttempts, lastException));
      }
      return None;
    }
  }

  predicate MayRetry(succeeded: bool, attempt: nat, maxAttempts: int)
  {
    !succeeded && attempt < maxAttempts
  }

  predicate Exhausted(succeeded: bool, attempt: nat, maxAttempts: int)
  {
    !succeeded && attempt >= maxAttempts
  }

  /** A context that has not succeeded either may retry or is exhausted,
      never both; a successful one does neither. */
  lemma RetryOrExhausted(succeeded: bool, attempt: nat, maxAttempts: int)
    ensures !succeeded ==> (MayRetry(succeeded, attempt, maxAttempts) <==> !Exhausted(succeeded, attempt, maxAttempts))
    ensures succeeded ==> !MayRetry(succeeded, attempt, maxAttempts) && !Exhausted(succeeded, attempt, maxAttempts)
  {
  }

  /** The loop of the context's documented use: while `should_retry`,
      call; on a return mark success and stop, on an exception mark the
      failure. It stops after at most `maxAttempts` calls, and exactly
      when a call returned or the context is exhausted. */
  method RunWithContext<T>(ctx: RetryContext, cfg: RetryConfig, call: nat -> Outcome<T>, draws: nat -> nat)
    returns (result: Option<T>, calls: nat)
    requires ctx.attempt == 0 && !ctx.succeeded
    modifies ctx
    ensures calls <= if ctx.maxAttempts > 0 then ctx.maxAttempts else 0
    ensures forall k :: 0 <= k < calls && k != calls - 1 ==> call(k).Raised?
    ensures result.Some? <==> ctx.succeeded
    ensures result.Some? ==> calls >= 1 && call(calls - 1) == Returned(result.value)
    ensures result.None? ==> Exhausted(ctx.succeeded, ctx.attempt, ctx.maxAttempts) && ctx.attempt == calls
  {
    result := None;
    calls := 0;
    var again := ctx.ShouldRetry();
    while again
      invariant !ctx.succeeded && ctx.attempt == calls && result.None?
      invariant calls <= if ctx.maxAttempts > 0 then ctx.maxAttempts else 0
      invariant forall k :: 0 <= k < calls ==> call(k).Raised?
      invariant again == MayRetry(ctx.succeeded, ctx.attempt, ctx.maxAttempts)
      decreases ctx.maxAttempts - calls
    {
      var outcome := call(calls);
      calls := calls + 1;
      if outcome.Returned? {
        ctx.Success();
        return Some(outcome.value), calls;
      }
      var _ := ctx.Failed(outcome.exc, cfg, draws(calls - 1));
      again := ctx.ShouldRetry();
    }
  }
}
