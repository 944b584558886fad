/**
 * Retry with exponential backoff (client/src/services/utils/retryUtils.ts).
 *
 * The asynchronous function `fn` is modelled as `attempt: nat -> Outcome<T, E>`,
 * the outcome of its i-th invocation.  The sleeps are not performed: the loop
 * produces the sequence of delays it would wait, in milliseconds.
 */
module Retry {
  import opened Outcomes

  /** `Math.pow` on integers with a natural exponent. */
  function Pow(base: int, n: nat): int
  {
    if n == 0 then 1 else base * Pow(base, n - 1)
  }

  /** The waits before attempts 1..n: `delay * base^i` for i < n. */
  function Backoff(delay: int, base: int, n: nat): (waits: seq<int>)
    ensures |waits| == n
    ensures forall i :: 0 <= i < n ==> waits[i] == delay * Pow(base, i)
  {
    if n == 0 then [] else Backoff(delay, base, n - 1) + [delay * Pow(base, n - 1)]
  }

  /**
   * Everything one call of the retry loop produces: what it resolves or rejects
   * with (`Err(None)` is the `undefined` it throws when no attempt ran), how many
   * times `fn` was called and the waits it slept, in order.
   */
  datatype RetryRun<T, E> = RetryRun(result: Outcome<T, Option<E>>, calls: nat, waits: seq<int>)

  /** The run from attempt `i` on, given that attempts 0..i-1 all failed. */
  function RunFrom<T, E>(attempt: nat -> Outcome<T, E>, i: nat, retries: int, delay: int, base: int): RetryRun<T, E>
    requires i <= retries
    decreases retries - i
  {
    match attempt(i)
    case Ok(v) => RetryRun(Ok(v), i + 1, Backoff(delay, base, i))
    case Err(e) =>
      if i == retries then RetryRun(Err(Some(e)), i + 1, Backoff(delay, base, i))
      else RunFrom(attempt, i + 1, retries, delay, base)
  }

  /** The reference definition of `retryWithBackoff(fn, retries, delay, base)`. */
  function RetrySpec<T, E>(attempt: nat -> Outcome<T, E>, retries: int, delay: int, base: int): RetryRun<T, E>
  {
    if retries < 0 then RetryRun(Err(None), 0, []) else RunFrom(attempt, 0, retries, delay, base)
  }

  /** `retryWithBackoff`: the bounded attempt loop. */
  method RetryWithBackoff<T, E>(attempt: nat -> Outcome<T, E>, retries: int := 2, delay: int := 100, base: int := 2)
    returns (result: Outcome<T, Option<E>>, calls: nat, waits: seq<int>)
    ensures RetryRun(result, calls, waits) == RetrySpec(attempt, retries, delay, base)
  {
    var lastError: Option<E> := None;
    calls, waits := 0, [];
    var i: nat := 0;
    while i <= retries
      invariant i <= (if retries < 0 then 0 else retries)
      invariant calls == i && waits == Backoff(delay, base, i)
      invariant lastError == None <==> i == 0
      invariant 0 <= retries ==> RetrySpec(attempt, retries, delay, base) == RunFrom(attempt, i, retries, delay, base)
    {
      var outcome := attempt(i);
      calls := calls + 1;
      match outcome {
        case Ok(v) =>
          result := Ok(v);
          return;
        case Err(e) =>
          lastError := Some(e);
          if i == retries {
            result := Err(Some(e));
            return;
          }
          waits := waits + [delay * Pow(base, i)];
      }
      i := i + 1;
    }
    result := Err(lastError);
  }

  /** `retryApiCall`: the same loop with backoff base 2. */
  method RetryApiCall<T, E>(apiCall: nat -> Outcome<T, E>, retries: int := 2, delay: int := 100)
    returns (result: Outcome<T, Option<E>>, calls: nat, waits: seq<int>)
    ensures RetryRun(result, calls, waits) == RetrySpec(apiCall, retries, delay, 2)
  {
    result, calls, waits := RetryWithBackoff(apiCall, retries, delay, 2);
  }

  /** Every one of the first `n` attempts fails. */
  ghost predicate FailsBefore<T, E>(attempt: nat -> Outcome<T, E>, n: nat)
  {
    forall j: nat :: j < n ==> attempt(j).Err?
  }

  lemma {:induction false} RunFromShape<T, E>(attempt: nat -> Outcome<T, E>, i: nat, retries: int, delay: int, base: int)
    requires i <= retries
    ensures var run := RunFrom(attempt, i, retries, delay, base);
      && i < run.calls <= retries + 1
      && run.waits == Backoff(delay, base, run.calls - 1)
      && (forall j: nat :: i <= j < run.calls - 1 ==> attempt(j).Err?)
      && (run.result.Ok? ==> attempt(run.calls - 1) == Ok(run.result.value))
      && (run.result.Err? ==> run.calls == retries + 1 && attempt(retries).Err?
                              && run.result.error == Some(attempt(retries).error))
    decreases retries - i
  {
    if attempt(i).Err? && i < retries {
      RunFromShape(attempt, i + 1, retries, delay, base);
    }
  }

  /** `fn` is called at most `retries + 1` times, and not at all when `retries < 0`. */
  lemma CallsBounded<T, E>(attempt: nat -> Outcome<T, E>, retries: int, delay: int, base: int)
    ensures var run := RetrySpec(attempt, retries, delay, base);
      && run.calls <= (if retries < 0 then 0 else retries + 1)
      && (retries >= 0 ==> run.calls >= 1)
  {
    if retries >= 0 { RunFromShape(attempt, 0, retries, delay, base); }
  }

  /**
   * The run resolves exactly when one of the first `retries + 1` attempts
   * succeeds, and then with the first success, after which no further call is made.
   */
  lemma ResolvesWithFirstSuccess<T, E>(attempt: nat -> Outcome<T, E>, retries: int, delay: int, base: int, k: nat)
    requires k <= retries && attempt(k).Ok? && FailsBefore(attempt, k)
    ensures RetrySpec(attempt, retries, delay, base).result == Ok(attempt(k).value)
    ensures RetrySpec(attempt, retries, delay, base).calls == k + 1
  {
    RunFromShape(attempt, 0, retries, delay, base);
  }

  /** If every allowed attempt fails, the last attempt's error is rethrown after `retries + 1` calls. */
  lemma RethrowsLastError<T, E>(attempt: nat -> Outcome<T, E>, retries: int, delay: int, base: int)
    requires 0 <= retries && FailsBefore(attempt, retries + 1)
    ensures RetrySpec(attempt, retries, delay, base).result == Err(Some(attempt(retries).error))
    ensures RetrySpec(attempt, retries, delay, base).calls == retries + 1
  {
    RunFromShape(attempt, 0, retries, delay, base);
  }

  /** A first-try success calls `fn` once and never waits, whatever `retries` is. */
  lemma FirstTrySuccess<T, E>(attempt: nat -> Outcome<T, E>, retries: int, delay: int, base: int)
    requires 0 <= retries && attempt(0).Ok?
    ensures RetrySpec(attempt, retries, delay, base) == RetryRun(Ok(attempt(0).value), 1, [])
  {
  }

  /**
   * The wait after failed attempt i is `delay * base^i`, and there is one wait
   * fewer than calls: none follows the final attempt.
   */
  lemma WaitsFollowBackoff<T, E>(attempt: nat -> Outcome<T, E>, retries: int, delay: int, base: int)
    requires 0 <= retries
    ensures var run := RetrySpec(attempt, retries, delay, base);
      && |run.waits| == run.calls - 1
      && forall i :: 0 <= i < |run.waits| ==> run.waits[i] == delay * Pow(base, i)
  {
    RunFromShape(attempt, 0, retries, delay, base);
  }

  /** With `retries < 0` the loop body never runs and the stored `undefined` is thrown. */
  lemma NegativeRetriesNeverCall<T, E>(attempt: nat -> Outcome<T, E>, retries: int, delay: int, base: int)
    requires retries < 0
    ensures RetrySpec(attempt, retries, delay, base) == RetryRun(Err(None), 0, [])
  {
  }

  /** Two failures then a success, with `retries = 2`: the success value after exactly 3 calls. */
  lemma TwoFailuresThenSuccess<T, E>(attempt: nat -> Outcome<T, E>, delay: int, base: int)
    requires attempt(0).Err? && attempt(1).Err? && attempt(2).Ok?
    ensures RetrySpec(attempt, 2, delay, base).result == Ok(attempt(2).value)
    ensures RetrySpec(attempt, 2, delay, base).calls == 3
    ensures RetrySpec(attempt, 2, delay, base).waits == [delay, delay * base]
  {
    ResolvesWithFirstSuccess(attempt, 2, delay, base, 2);
    WaitsFollowBackoff(attempt, 2, delay, base);
    assert Pow(base, 0) == 1 && Pow(base, 1) == base;
  }

  /** `retryApiCall` with its defaults is `retryWithBackoff(fn, 2, 100, 2)`: at most 3 calls, waits 100 then 200. */
  lemma ApiCallDefaults<T, E>(apiCall: nat -> Outcome<T, E>)
    ensures var run := RetrySpec(apiCall, 2, 100, 2);
      && 1 <= run.calls <= 3
      && run.waits == [100, 200][..run.calls - 1]
  {
    CallsBounded(apiCall, 2, 100, 2);
    WaitsFollowBackoff(apiCall, 2, 100, 2);
    var run := RetrySpec(apiCall, 2, 100, 2);
    assert Pow(2, 0) == 1 && Pow(2, 1) == 2;
  }
}
