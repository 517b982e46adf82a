/**
 * The `retry` decorator (src/core/retry.py): up to `max_retries + 1` attempts;
 * a retryable failure before the last attempt sleeps
 * `base_delay * backoff_factor ** attempt` and tries again; a non-retryable
 * exception propagates at once; when every attempt failed the last exception
 * is re-raised. The wrapped coroutine is an oracle: `call(i)` is what its
 * i-th invocation (from 0) returns or raises.
 */
module Retry {
  import opened Wrappers
  import opened Exceptions

  datatype RetryPolicy = RetryPolicy(
    maxRetries: int := 3,
    baseDelay: real := 1.0,
    backoffFactor: real := 2.0,
    retryOn: seq<ErrorClass> := [FetchErrorClass])

  /** `except retry_on as e` catches `e`. */
  predicate Retryable(p: RetryPolicy, e: Exc) {
    exists i :: 0 <= i < |p.retryOn| && IsInstance(e, p.retryOn[i])
  }

  /** An outcome that ends the attempts: a return, or an exception not in `retry_on`. */
  predicate Decisive<T>(p: RetryPolicy, r: Result<T>) {
    r.Ok? || !Retryable(p, r.error)
  }

  function Pow(b: real, n: nat): real {
    if n == 0 then 1.0 else b * Pow(b, n - 1)
  }

  /** The sleep after failed attempt `attempt`. */
  function Backoff(p: RetryPolicy, attempt: nat): real {
    p.baseDelay * Pow(p.backoffFactor, attempt)
  }

  /** The sleeps after the first `n` failed attempts, in order. */
  function Sleeps(p: RetryPolicy, n: nat): (s: seq<real>)
    ensures |s| == n && forall i :: 0 <= i < n ==> s[i] == Backoff(p, i)
  {
    seq(n, i requires 0 <= i => Backoff(p, i))
  }

  /** What `raise last_exception` raises when the loop never ran (`raise None`). */
  const RaiseNoneError: Exc := Exc(TypeErrorClass, "exceptions must derive from BaseException", None)

  /** What one decorated call did: its result, how many times it invoked the function, the sleeps. */
  datatype RetryRun<T> = RetryRun(result: Result<T>, calls: nat, sleeps: seq<real>)

  /** The number of attempts the loop allows. */
  function Attempts(p: RetryPolicy): int {
    p.maxRetries + 1
  }

  /** The first decisive attempt at or after `from`, or Attempts(p) if there is none. */
  function FirstDecisive<T>(p: RetryPolicy, call: nat -> Result<T>, from: nat): (k: nat)
    requires from <= Attempts(p)
    ensures from <= k <= Attempts(p)
    ensures forall i :: from <= i < k ==> !Decisive(p, call(i))
    decreases Attempts(p) - from
  {
    if from == Attempts(p) then from
    else if Decisive(p, call(from)) then from
    else FirstDecisive(p, call, from + 1)
  }

  /** The behaviour the decorator promises, stated without its loop. */
  function RetrySpec<T>(p: RetryPolicy, call: nat -> Result<T>): RetryRun<T> {
    if Attempts(p) <= 0 then RetryRun(Err(RaiseNoneError), 0, [])
    else
      var k := FirstDecisive(p, call, 0);
      if k < Attempts(p) then RetryRun(call(k), k + 1, Sleeps(p, k))
      else RetryRun(Err(call(k - 1).error), k, Sleeps(p, k - 1))
  }

  lemma {:induction false} FirstDecisiveIs<T>(p: RetryPolicy, call: nat -> Result<T>, from: nat, k: nat)
    requires from <= k <= Attempts(p)
    requires forall i :: from <= i < k ==> !Decisive(p, call(i))
    requires k < Attempts(p) ==> Decisive(p, call(k))
    ensures FirstDecisive(p, call, from) == k
    decreases k - from
  {
    if from < k {
      FirstDecisiveIs(p, call, from + 1, k);
    }
  }

  /** The decorated coroutine `wrapper(*args, **kwargs)`. */
  method Retry<T>(p: RetryPolicy, call: nat -> Result<T>) returns (run: RetryRun<T>)
    ensures run == RetrySpec(p, call)
  {
    var lastException: Option<Exc> := None;
    var sleeps: seq<real> := [];
    var attempt: nat := 0;
    while attempt < p.maxRetries + 1
      invariant attempt <= Attempts(p) || attempt == 0
      invariant forall i :: 0 <= i < attempt ==> !Decisive(p, call(i))
      invariant lastException == if attempt == 0 then None else Some(call(attempt - 1).error)
      invariant sleeps == Sleeps(p, if attempt == 0 || attempt <= p.maxRetries then attempt else attempt - 1)
    {
      var r := call(attempt);
      if r.Ok? || !Retryable(p, r.error) {
        FirstDecisiveIs(p, call, 0, attempt);
        return RetryRun(r, attempt + 1, sleeps);
      }
      lastException := Some(r.error);
      if attempt < p.maxRetries {
        sleeps := sleeps + [Backoff(p, attempt)];
      }
      attempt := attempt + 1;
    }
    if Attempts(p) > 0 {
      FirstDecisiveIs(p, call, 0, attempt);
    }
    run := RetryRun(if lastException.Some? then Err(lastException.value) else Err(RaiseNoneError), attempt, sleeps);
  }

  /** The function is invoked at most `max_retries + 1` times, and at least once when that is positive. */
  lemma CallBound<T>(p: RetryPolicy, call: nat -> Result<T>)
    ensures RetrySpec(p, call).calls <= if Attempts(p) <= 0 then 0 else Attempts(p)
    ensures Attempts(p) > 0 ==> RetrySpec(p, call).calls >= 1
  {
  }

  /** A first call that returns is the only call, and its value is returned. */
  lemma FirstCallSucceeds<T>(p: RetryPolicy, call: nat -> Result<T>)
    requires p.maxRetries >= 0 && call(0).Ok?
    ensures RetrySpec(p, call) == RetryRun(call(0), 1, [])
  {
    FirstDecisiveIs(p, call, 0, 0);
  }

  /** k <= max_retries retryable failures then a success: k + 1 calls, the success value, k sleeps. */
  lemma SuccessAfterFailures<T>(p: RetryPolicy, call: nat -> Result<T>, k: nat)
    requires k <= p.maxRetries
    requires forall i :: 0 <= i < k ==> call(i).Err? && Retryable(p, call(i).error)
    requires call(k).Ok?
    ensures RetrySpec(p, call) == RetryRun(call(k), k + 1, Sleeps(p, k))
  {
    FirstDecisiveIs(p, call, 0, k);
  }

  /** Every attempt fails retryably: max_retries + 1 calls, the last exception re-raised, no sleep after the last. */
  lemma AllAttemptsFail<T>(p: RetryPolicy, call: nat -> Result<T>)
    requires p.maxRetries >= 0
    requires forall i :: 0 <= i <= p.maxRetries ==> call(i).Err? && Retryable(p, call(i).error)
    ensures RetrySpec(p, call) == RetryRun(Err(call(p.maxRetries).error), p.maxRetries + 1, Sleeps(p, p.maxRetries))
  {
    FirstDecisiveIs(p, call, 0, Attempts(p));
  }

  /** An exception outside `retry_on` propagates from the first call: one call, no sleep. */
  lemma NonRetryablePropagates<T>(p: RetryPolicy, call: nat -> Result<T>)
    requires p.maxRetries >= 0 && call(0).Err? && !Retryable(p, call(0).error)
    ensures RetrySpec(p, call) == RetryRun(call(0), 1, [])
  {
    FirstDecisiveIs(p, call, 0, 0);
  }

  /**
   * Whatever the outcome: one sleep fewer than calls, the i-th being
   * base_delay * backoff_factor ** i; every call before the last failed
   * retryably; a raised error is the last call's own exception.
   */
  lemma SleepSchedule<T>(p: RetryPolicy, call: nat -> Result<T>)
    requires p.maxRetries >= 0
    ensures var run := RetrySpec(p, call);
      && |run.sleeps| == run.calls - 1
      && (forall i :: 0 <= i < |run.sleeps| ==> run.sleeps[i] == p.baseDelay * Pow(p.backoffFactor, i))
      && (forall i :: 0 <= i < run.calls - 1 ==> call(i).Err? && Retryable(p, call(i).error))
      && (run.result.Err? ==> run.result.error == call(run.calls - 1).error)
  {
  }

  /** Negative max_retries: the loop never runs and `raise None` fails with TypeError. */
  lemma NegativeMaxRetries<T>(p: RetryPolicy, call: nat -> Result<T>)
    requires p.maxRetries < 0
    ensures RetrySpec(p, call).calls == 0 && RetrySpec(p, call).result == Err(RaiseNoneError)
  {
  }

  /** The default policy retries FetchError only: not ParseError, not ValueError. */
  lemma DefaultRetriesFetchErrorsOnly(e: Exc)
    ensures Retryable(RetryPolicy(), e) <==> e.cls == FetchErrorClass
  {
    var p := RetryPolicy();
    if e.cls == FetchErrorClass {
      assert IsInstance(e, p.retryOn[0]);
    }
  }
}
