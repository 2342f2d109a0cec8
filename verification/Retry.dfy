/**
 The two retry helpers: `retry`, which calls a function again, and `retryNTimes`, which awaits one
 promise again.
 */
module Retrying {
  import opened Options

  // How one call ends.  An error may carry a flag that says whether it is worth trying again.
  datatype Attempt<T> = Success(value: T) | Failure(message: string, retryable: Option<bool>)

  function Power(b: nat, k: nat): nat {
    if k == 0 then 1 else b * Power(b, k - 1)
  }

  // `retriesMax` and `factor` default to 3 and 2 when they are zero.
  datatype Config = Config(retriesMax: nat, interval: nat, exponential: bool, factor: nat) {
    function Max(): nat { if retriesMax == 0 then 3 else retriesMax }

    function Factor(): nat { if factor == 0 then 2 else factor }

    // The pause after the k-th failure.
    function Pause(k: nat): nat {
      if exponential then interval * Power(Factor(), k) else interval
    }

    // All pauses after the first k failures.
    function Waited(k: nat): nat {
      if k == 0 then 0 else Waited(k - 1) + Pause(k)
    }
  }

  lemma NextPause(config: Config, k: nat)
    ensures config.exponential ==> config.Pause(k) * config.Factor() == config.Pause(k + 1)
  {
  }

  // Call number `k` settles the retry: it succeeds, or fails with an error flagged as not worth trying
  // again, or is the last one allowed; and every call before it fails with an error not so flagged.
  ghost predicate SettlesAt<T>(fn: nat -> Attempt<T>, max: nat, k: nat) {
    && k < max
    && (forall i | 0 <= i < k :: fn(i).Failure? && fn(i).retryable != Some(false))
    && (fn(k).Success? || fn(k).retryable == Some(false) || k + 1 == max)
  }

  // Call number i of the function ends as fn(i).
  method Retry<T>(fn: nat -> Attempt<T>, config: Config)
    returns (result: Attempt<T>, calls: nat, waited: nat)
    ensures var max := if config.retriesMax == 0 then 3 else config.retriesMax;
            0 < calls <= max && SettlesAt(fn, max, calls - 1) && result == fn(calls - 1)
    ensures waited == config.Waited(calls - 1)
    ensures !config.exponential ==> waited == (calls - 1) * config.interval
  {
    var interval := config.interval;
    var i := 0;
    waited := 0;
    while i < config.Max()
      invariant 0 <= i < config.Max()
      invariant forall k | 0 <= k < i :: fn(k).Failure? && fn(k).retryable != Some(false)
      invariant waited == config.Waited(i)
      invariant !config.exponential ==> waited == i * config.interval
      invariant interval == config.Pause(if config.exponential then i else 0)
    {
      result := fn(i);
      calls := i + 1;
      if result.Success? {
        return;
      }
      if config.Max() == i + 1 || result.retryable == Some(false) {
        return;
      }
      NextPause(config, i);
      interval := if config.exponential then interval * config.Factor() else interval;
      waited := waited + interval;
      i := i + 1;
    }
  }

  // There is one settling call, so what `Retry` returns is determined by its contract: the first
  // success, or the first error not to be retried, or the last error.
  lemma SettlesOnce<T>(fn: nat -> Attempt<T>, max: nat, a: nat, b: nat)
    requires SettlesAt(fn, max, a) && SettlesAt(fn, max, b)
    ensures a == b
  {
  }

  lemma GeometricStep(i: int, f: int, p: int, s: int)
    requires s * (f - 1) == i * f * (p - 1)
    ensures (s + i * (f * p)) * (f - 1) == i * f * (f * p - 1)
  {
  }

  // The pauses add up to interval * (factor + ... + factor^k), a geometric sum; they double by default.
  lemma {:induction false} GeometricWait(config: Config, k: nat)
    requires config.exponential
    ensures var factor := if config.factor == 0 then 2 else config.factor;
            config.Waited(k) * (factor - 1) == config.interval * factor * (Power(factor, k) - 1)
    decreases k
  {
    if k == 0 {
    } else {
      GeometricWait(config, k - 1);
      var i, f, p, s := config.interval, config.Factor(), Power(config.Factor(), k - 1), config.Waited(k - 1);
      assert config.Pause(k) == i * (f * p);
      GeometricStep(i, f, p, s);
    }
  }

  // ---------------------------------------------------------------- retryNTimes

  // A promise that has been started settles once, and every await sees the same outcome.
  datatype Promise<T> = Fulfilled(value: T) | Rejected(error: string)

  datatype Outcome<T> = Returned(value: T) | Threw(error: string) | BadArgument | Exhausted

  // The outcome is the promise's own, whatever the number of attempts; the throw after the loop is
  // never reached, and a rejection costs a pause for each attempt but the last.
  method RetryNTimes<T>(toTry: Promise<T>, times: int, intervalInMs: nat)
    returns (outcome: Outcome<T>, waited: nat)
    ensures times < 1 <==> outcome.BadArgument?
    ensures times >= 1 ==>
              outcome == match toTry case Fulfilled(v) => Returned(v) case Rejected(e) => Threw(e)
    ensures waited == if times >= 1 && toTry.Rejected? then (times - 1) * intervalInMs else 0
  {
    waited := 0;
    if times < 1 {
      return BadArgument, 0;
    }
    var attemptCount := 0;
    while attemptCount < times
      invariant 0 <= attemptCount < times
      invariant attemptCount > 0 ==> toTry.Rejected?
      invariant waited == attemptCount * intervalInMs
    {
      attemptCount := attemptCount + 1;
      match toTry {
        case Fulfilled(v) => return Returned(v), waited;
        case Rejected(e) =>
          if attemptCount >= times {
            return Threw(e), waited;
          }
      }
      waited := waited + intervalInMs;
    }
    outcome := Exhausted;
  }
}
