/** The retry policy of api/strapi.js: `retry(options)(action)` and the
    `callWithRetry` wrapper every creation step goes through. Waiting itself
    is not modelled; the delays waited are returned as values. */
module Retry {
  import opened Values

  /** `DEFAULT_RETRY_DELAY`, used when `options.retryDelay` is nullish. */
  const DefaultRetryDelay: int := 1000

  /** The options object. An absent field is `None`; JavaScript truthiness
      makes a zero increase or multiplier behave as absent. */
  datatype RetryOptions = RetryOptions(
    retries: int,
    retryDelay: Option<int>,
    retryDelayIncrease: Option<int>,
    retryDelayMultiplier: Option<int>)

  /** The options `callWithRetry` uses when its caller passes none, which is
      every caller: `{retries: 3, retryDelay: 2000}`. */
  const CallOptions: RetryOptions := RetryOptions(3, Some(2000), None, None)

  /** What one call of `action(retryCount)` does: resolve, reject, or reject
      with an `AbortErrorWrapper` built around some error. */
  datatype Attempt<T, E> = Returns(value: T) | Throws(error: E) | Aborts(wrapped: E)

  /** How the whole retry ends. `Threw(None)` is a rejection with `undefined`. */
  datatype Outcome<T, E> = Returned(value: T) | Threw(error: Option<E>)

  predicate Truthful(x: Option<int>)
  {
    x.Some? && x.value != 0
  }

  function InitialDelay(opts: RetryOptions): int
  {
    if opts.retryDelay.Some? then opts.retryDelay.value else DefaultRetryDelay
  }

  /** One failure's update of the delay: add the increase, then multiply. */
  function NextDelay(opts: RetryOptions, delay: int): int
  {
    var increased := if Truthful(opts.retryDelayIncrease) then delay + opts.retryDelayIncrease.value else delay;
    if Truthful(opts.retryDelayMultiplier) then increased * opts.retryDelayMultiplier.value else increased
  }

  /** The delay after `n` failures. */
  function DelayAfter(opts: RetryOptions, n: nat): int
  {
    if n == 0 then InitialDelay(opts) else NextDelay(opts, DelayAfter(opts, n - 1))
  }

  /** The most calls `action` receives: one, plus one per allowed retry. */
  function MaxCalls(retries: int): (n: nat)
    ensures n >= 1
    ensures retries >= 0 ==> n == retries + 1
  {
    if retries > 0 then retries + 1 else 1
  }

  /** `retry(options)(action)`. `action` is given as the answer of its call
      with each `retryCount`. The result says how the retry ends, how many
      calls were made, and the delays waited between them. */
  method Retry<T, E>(opts: RetryOptions, action: nat -> Attempt<T, E>)
    returns (out: Outcome<T, E>, calls: nat, waits: seq<int>)
    ensures 1 <= calls <= MaxCalls(opts.retries)
    ensures forall i :: 0 <= i < calls - 1 ==> action(i).Throws?
    ensures action(calls - 1).Returns? ==> out == Returned(action(calls - 1).value)
    ensures action(calls - 1).Aborts? ==> out == Threw(None)
    ensures action(calls - 1).Throws? ==>
      out == Threw(Some(action(calls - 1).error)) && calls == MaxCalls(opts.retries)
    ensures |waits| == calls - 1
    ensures forall i :: 0 <= i < |waits| ==> waits[i] == DelayAfter(opts, i + 1)
  {
    var retryDelay := InitialDelay(opts);
    var retryCount: nat := 0;
    waits := [];
    while true
      invariant retryCount < MaxCalls(opts.retries)
      invariant forall i :: 0 <= i < retryCount ==> action(i).Throws?
      invariant retryDelay == DelayAfter(opts, retryCount)
      invariant |waits| == retryCount
      invariant forall i :: 0 <= i < |waits| ==> waits[i] == DelayAfter(opts, i + 1)
      decreases MaxCalls(opts.retries) - retryCount
    {
      match action(retryCount)
      case Returns(v) =>
        return Returned(v), retryCount + 1, waits;
      case Aborts(_) =>
        return Threw(None), retryCount + 1, waits;
      case Throws(e) =>
        if retryCount >= opts.retries {
          return Threw(Some(e)), retryCount + 1, waits;
        }
        retryCount := retryCount + 1;
        retryDelay := NextDelay(opts, retryDelay);
        waits := waits + [retryDelay];
    }
  }

  /** The action `callWithRetry` hands to `retry`: call the method, return its
      `{data, error}` on the attempt whose index equals `options.retries`,
      otherwise reject with the error if there is one. */
  function CallAction(opts: RetryOptions, responses: nat -> ApiResult, i: nat): (a: Attempt<ApiResult, ApiResult>)
    ensures a.Throws? <==> i != opts.retries && responses(i).Err?
    ensures !a.Aborts?
  {
    if i == opts.retries then Returns(responses(i))
    else if responses(i).Err? then Throws(responses(i))
    else Returns(responses(i))
  }

  /** The index of the first error-free response, if one comes before
      `bound`, else `bound`. */
  function FirstOk(responses: nat -> ApiResult, bound: nat): (k: nat)
    ensures k <= bound
    ensures forall i :: 0 <= i < k ==> responses(i).Err?
    ensures k < bound ==> responses(k).Ok?
  {
    if bound == 0 then 0
    else
      var k := FirstOk(responses, bound - 1);
      if k < bound - 1 then k else if responses(bound - 1).Ok? then bound - 1 else bound
  }

  /** `callWithRetry(method, args, options)`, with `responses(i)` the answer
      of the i-th call of `method`. With `retries >= 0` it never rejects: it
      resolves with the first error-free answer among the first
      `retries + 1` calls, or else with the answer of the call numbered
      `retries`, error included, after `min(k + 1, retries + 1)` calls when
      the first `k` answers are errors. */
  method CallWithRetry(opts: RetryOptions, responses: nat -> ApiResult)
    returns (out: Outcome<ApiResult, ApiResult>, calls: nat)
    ensures 1 <= calls <= MaxCalls(opts.retries)
    ensures opts.retries >= 0 ==>
      var k := FirstOk(responses, opts.retries + 1);
      calls == (if k <= opts.retries then k + 1 else opts.retries + 1) &&
      out == Returned(responses(calls - 1))
    ensures opts.retries < 0 ==>
      calls == 1 && out == (if responses(0).Err? then Threw(Some(responses(0))) else Returned(responses(0)))
  {
    var action: nat -> Attempt<ApiResult, ApiResult> := (i: nat) => CallAction(opts, responses, i);
    var waits;
    out, calls, waits := Retry(opts, action);
    forall i: nat | i < calls - 1
      ensures responses(i).Err?
    {
      assert action(i).Throws?;
    }
    assert action(calls - 1) == CallAction(opts, responses, calls - 1);
  }

  /** The answer `callWithRetry` resolves with when `retries >= 0`: the
      first error-free one among the first `retries + 1`, else the one of
      the call numbered `retries`. */
  function RetriedAnswer(opts: RetryOptions, responses: nat -> ApiResult): (a: ApiResult)
    requires opts.retries >= 0
    ensures a.Err? ==> forall i :: 0 <= i <= opts.retries ==> responses(i).Err?
    ensures a.Ok? ==> exists i :: 0 <= i <= opts.retries && a == responses(i)
  {
    var k := FirstOk(responses, opts.retries + 1);
    responses(if k <= opts.retries then k else opts.retries)
  }

  /** The resolved value of `callWithRetry` with the options every caller uses. */
  method Call(responses: nat -> ApiResult) returns (answer: ApiResult)
    ensures answer == RetriedAnswer(CallOptions, responses)
  {
    var out, calls := CallWithRetry(CallOptions, responses);
    answer := out.value;
  }

  // ---------------------------------------------------------------------
  // The delay schedule

  /** With no truthy increase or multiplier the delay never changes. */
  lemma {:induction false} ConstantDelay(opts: RetryOptions, n: nat)
    requires !Truthful(opts.retryDelayIncrease) && !Truthful(opts.retryDelayMultiplier)
    ensures DelayAfter(opts, n) == InitialDelay(opts)
  {
    if n > 0 {
      ConstantDelay(opts, n - 1);
    }
  }

  /** With only an increase, the delay grows by it once per failure. */
  lemma {:induction false} LinearDelay(opts: RetryOptions, n: nat)
    requires Truthful(opts.retryDelayIncrease) && !Truthful(opts.retryDelayMultiplier)
    ensures DelayAfter(opts, n) == InitialDelay(opts) + n * opts.retryDelayIncrease.value
  {
    if n > 0 {
      LinearDelay(opts, n - 1);
    }
  }

  function Power(b: int, n: nat): int
  {
    if n == 0 then 1 else b * Power(b, n - 1)
  }

  /** With only a multiplier, the delay is scaled by it once per failure. */
  lemma {:induction false} GeometricDelay(opts: RetryOptions, n: nat)
    requires !Truthful(opts.retryDelayIncrease) && Truthful(opts.retryDelayMultiplier)
    ensures DelayAfter(opts, n) == InitialDelay(opts) * Power(opts.retryDelayMultiplier.value, n)
  {
    if n > 0 {
      GeometricDelay(opts, n - 1);
      var m := opts.retryDelayMultiplier.value;
      calc {
        DelayAfter(opts, n);
        DelayAfter(opts, n - 1) * m;
        InitialDelay(opts) * Power(m, n - 1) * m;
        InitialDelay(opts) * (m * Power(m, n - 1));
      }
    }
  }
}
