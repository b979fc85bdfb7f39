/**
 * The error-recovery strategies: a circuit breaker (CLOSED, OPEN and
 * HALF_OPEN), retry over a bounded number of attempts, and a fallback
 * handler with a time-limited cache of successful results.
 *
 * A wrapped call is not run here: its outcome is a parameter (`Outcome`,
 * or a function from the attempt number to the outcome for retries), and
 * the methods report whether they invoked it. The clock is a `now`
 * parameter in whole seconds; backoff delays and jitter are not modelled.
 */
module Recovery {
  import opened Wrappers
  import opened Values

  /** An exception raised by a wrapped call: its class name and `str`. */
  datatype Fault = Fault(kind: string, text: string)

  /** What a wrapped call does when invoked. */
  datatype Outcome = Returned(v: Value) | Threw(f: Fault)

  // ---------------------------------------------------------------------
  // Circuit breaker

  datatype BreakerState = CLOSED | OPEN | HALF_OPEN

  /** `CircuitBreakerConfig`; `expected` is the `isinstance` test against `expected_exception`. */
  datatype BreakerConfig = BreakerConfig(failureThreshold: int, recoveryTimeout: int, expected: string -> bool,
                                         successThreshold: int)

  /** The breaker's mutable fields as a value. */
  datatype Breaker = Breaker(state: BreakerState, failureCount: nat, successCount: nat, lastFailure: Option<int>)

  /** What `call` does: pass on the call's outcome, or raise CIRCUIT_BREAKER_OPEN with its context. */
  datatype Reply = Passed(o: Outcome) | Rejected(failureCount: nat, timeUntilRetry: int)

  /** `_should_attempt_reset`: no failure yet, or `recovery_timeout` has elapsed since the last one. */
  predicate ShouldAttemptReset(b: Breaker, cfg: BreakerConfig, now: int)
  {
    b.lastFailure.None? || now - b.lastFailure.value >= cfg.recoveryTimeout
  }

  /** `_get_time_until_retry`: the rest of the timeout, never negative. */
  function TimeUntilRetry(b: Breaker, cfg: BreakerConfig, now: int): (r: int)
    ensures r >= 0
    ensures b.lastFailure.Some? && !ShouldAttemptReset(b, cfg, now) ==> r > 0
    ensures ShouldAttemptReset(b, cfg, now) ==> r == 0
  {
    if b.lastFailure.None? then 0
    else var remaining := cfg.recoveryTimeout - (now - b.lastFailure.value);
    if remaining > 0 then remaining else 0
  }

  /** `_on_success` */
  function OnSuccess(b: Breaker, cfg: BreakerConfig): Breaker
  {
    if b.state == HALF_OPEN then
      var n := b.successCount + 1;
      if n >= cfg.successThreshold then b.(state := CLOSED, successCount := n, failureCount := 0)
      else b.(successCount := n)
    else b.(failureCount := 0)
  }

  /** `_on_failure` */
  function OnFailure(b: Breaker, cfg: BreakerConfig, now: int): Breaker
  {
    var n := b.failureCount + 1;
    var b' := b.(failureCount := n, lastFailure := Some(now));
    if b.state == HALF_OPEN then b'.(state := OPEN)
    else if b.state == CLOSED && n >= cfg.failureThreshold then b'.(state := OPEN)
    else b'
  }

  /** The state `call` runs the function in: an OPEN breaker whose timeout has passed probes as HALF_OPEN. */
  function Admitted(b: Breaker): Breaker
  {
    if b.state == OPEN then b.(state := HALF_OPEN, successCount := 0) else b
  }

  /**
   * `call`: an OPEN breaker rejects the call until the timeout; otherwise the
   * function runs, a success is counted, an expected exception is counted
   * as a failure and re-raised, and any other exception is re-raised alone.
   * The third component says whether the function was invoked.
   */
  function Step(b: Breaker, cfg: BreakerConfig, o: Outcome, now: int): (Breaker, Reply, bool)
  {
    if b.state == OPEN && !ShouldAttemptReset(b, cfg, now) then
      (b, Rejected(b.failureCount, TimeUntilRetry(b, cfg, now)), false)
    else
      var a := Admitted(b);
      match o
      case Returned(_) => (OnSuccess(a, cfg), Passed(o), true)
      case Threw(f) => (if cfg.expected(f.kind) then OnFailure(a, cfg, now) else a, Passed(o), true)
  }

  /** The breaker only opens after a recorded failure, and CLOSED never holds a full failure count. */
  ghost predicate BreakerInv(b: Breaker, cfg: BreakerConfig)
  {
    (b.state == OPEN ==> b.lastFailure.Some?)
    && (b.state == CLOSED ==> b.failureCount == 0 || b.failureCount < cfg.failureThreshold)
  }

  lemma StepKeepsInv(b: Breaker, cfg: BreakerConfig, o: Outcome, now: int)
    requires BreakerInv(b, cfg)
    ensures BreakerInv(Step(b, cfg, o, now).0, cfg)
  {
  }

  /** In CLOSED a success resets the failure count and the breaker stays closed. */
  lemma ClosedSuccess(b: Breaker, cfg: BreakerConfig, v: Value, now: int)
    requires b.state == CLOSED
    ensures Step(b, cfg, Returned(v), now) == (b.(failureCount := 0), Passed(Returned(v)), true)
  {
  }

  /** In CLOSED a counted failure adds one and opens the breaker exactly when it reaches the threshold. */
  lemma ClosedFailure(b: Breaker, cfg: BreakerConfig, f: Fault, now: int)
    requires b.state == CLOSED && cfg.expected(f.kind)
    ensures var (b', reply, invoked) := Step(b, cfg, Threw(f), now);
      b'.failureCount == b.failureCount + 1 && b'.lastFailure == Some(now) && reply == Passed(Threw(f)) && invoked
      && (b'.state == OPEN <==> b.failureCount + 1 >= cfg.failureThreshold)
      && (b'.state == CLOSED <==> b.failureCount + 1 < cfg.failureThreshold)
  {
  }

  /** Before the timeout an OPEN breaker raises CIRCUIT_BREAKER_OPEN without running the function or changing. */
  lemma OpenRejects(b: Breaker, cfg: BreakerConfig, o: Outcome, now: int)
    requires b.state == OPEN && b.lastFailure.Some? && now - b.lastFailure.value < cfg.recoveryTimeout
    ensures var (b', reply, invoked) := Step(b, cfg, o, now);
      b' == b && !invoked && reply.Rejected? && reply.failureCount == b.failureCount && reply.timeUntilRetry > 0
  {
  }

  /** After the timeout an OPEN breaker runs the function as HALF_OPEN with no successes counted yet. */
  lemma OpenProbes(b: Breaker, cfg: BreakerConfig, o: Outcome, now: int)
    requires b.state == OPEN && ShouldAttemptReset(b, cfg, now)
    ensures var (b', reply, invoked) := Step(b, cfg, o, now);
      invoked && reply == Passed(o)
      && (b', reply, invoked) == Step(b.(state := HALF_OPEN, successCount := 0), cfg, o, now)
  {
  }

  /** In HALF_OPEN any counted failure opens the breaker again. */
  lemma HalfOpenFailure(b: Breaker, cfg: BreakerConfig, f: Fault, now: int)
    requires b.state == HALF_OPEN && cfg.expected(f.kind)
    ensures Step(b, cfg, Threw(f), now).0.state == OPEN
    ensures Step(b, cfg, Threw(f), now).0.lastFailure == Some(now)
  {
  }

  /** An exception that is not expected passes through and changes nothing beyond admitting the call. */
  lemma UnexpectedPassesThrough(b: Breaker, cfg: BreakerConfig, f: Fault, now: int)
    requires !cfg.expected(f.kind) && (b.state != OPEN || ShouldAttemptReset(b, cfg, now))
    ensures Step(b, cfg, Threw(f), now) == (Admitted(b), Passed(Threw(f)), true)
    ensures b.state != OPEN ==> Step(b, cfg, Threw(f), now).0 == b
  {
  }

  /** The breaker after `n` successful calls. */
  function Successes(b: Breaker, cfg: BreakerConfig, n: nat, now: int): Breaker
  {
    if n == 0 then b else Step(Successes(b, cfg, n - 1, now), cfg, Returned(Null), now).0
  }

  /**
   * From a fresh HALF_OPEN probe, fewer than `success_threshold` successes
   * keep it half open, and exactly that many close it with no failures.
   */
  lemma {:induction false} HalfOpenCloses(b: Breaker, cfg: BreakerConfig, n: nat, now: int)
    requires b.state == HALF_OPEN && b.successCount == 0 && 1 <= n <= cfg.successThreshold
    ensures n < cfg.successThreshold ==>
      Successes(b, cfg, n, now).state == HALF_OPEN && Successes(b, cfg, n, now).successCount == n
    ensures n == cfg.successThreshold ==>
      Successes(b, cfg, n, now).state == CLOSED && Successes(b, cfg, n, now).failureCount == 0
  {
    if n > 1 {
      HalfOpenCloses(b, cfg, n - 1, now);
    }
  }

  class CircuitBreaker {
    const config: BreakerConfig
    var state: BreakerState
    var failureCount: nat
    var successCount: nat
    var lastFailure: Option<int>

    function Model(): Breaker
      reads this
    {
      Breaker(state, failureCount, successCount, lastFailure)
    }

    ghost predicate Valid()
      reads this
    {
      BreakerInv(Model(), config)
    }

    constructor (config: BreakerConfig)
      ensures this.config == config && Model() == Breaker(CLOSED, 0, 0, None) && Valid()
    {
      this.config := config;
      state := CLOSED;
      failureCount := 0;
      successCount := 0;
      lastFailure := None;
    }

    /** `call`, with `o` the outcome the function has if it is run. */
    method Call(o: Outcome, now: int) returns (reply: Reply, invoked: bool)
      requires Valid()
      modifies this
      ensures Valid()
      ensures (Model(), reply, invoked) == Step(old(Model()), config, o, now)
    {
      StepKeepsInv(Model(), config, o, now);
      if state == OPEN {
        if lastFailure.None? || now - lastFailure.value >= config.recoveryTimeout {
          state := HALF_OPEN;
          successCount := 0;
        } else {
          var wait := 0;
          if lastFailure.Some? && config.recoveryTimeout - (now - lastFailure.value) > 0 {
            wait := config.recoveryTimeout - (now - lastFailure.value);
          }
          return Rejected(failureCount, wait), false;
        }
      }
      invoked := true;
      reply := Passed(o);
      match o {
        case Returned(_) =>
          if state == HALF_OPEN {
            successCount := successCount + 1;
            if successCount >= config.successThreshold {
              state := CLOSED;
              failureCount := 0;
            }
          } else {
            failureCount := 0;
          }
        case Threw(f) =>
          if config.expected(f.kind) {
            failureCount := failureCount + 1;
            lastFailure := Some(now);
            if state == HALF_OPEN {
              state := OPEN;
            } else if state == CLOSED && failureCount >= config.failureThreshold {
              state := OPEN;
            }
          }
      }
    }
  }

  // ---------------------------------------------------------------------
  // Retry

  /** `execute_with_retry`'s outcome: the first success, a re-raised exception, or RETRY_EXHAUSTED with the last one. */
  datatype RetryResult = Succeeded(v: Value) | Reraised(f: Fault) | Exhausted(last: Option<Fault>)

  /** Whether an attempt's outcome lets the loop try again: a fault of a retryable class. */
  predicate Retryable(o: Outcome, retryOn: string -> bool)
  {
    o.Threw? && retryOn(o.f.kind)
  }

  /** The first attempt from `i` below `n` that ends the loop, or `n` when none does. */
  function StopAt(attempt: nat -> Outcome, retryOn: string -> bool, i: nat, n: nat): (k: nat)
    requires i <= n
    ensures i <= k <= n
    ensures forall j :: i <= j < k ==> Retryable(attempt(j), retryOn)
    ensures k < n ==> !Retryable(attempt(k), retryOn)
    decreases n - i
  {
    if i == n || !Retryable(attempt(i), retryOn) then i else StopAt(attempt, retryOn, i + 1, n)
  }

  /**
   * The result of `execute_with_retry` with at most `maxAttempts` calls, and
   * how many calls it makes: it stops at the first success or non-retryable
   * exception, and otherwise gives up after the last attempt.
   */
  function RetryOutcome(attempt: nat -> Outcome, retryOn: string -> bool, maxAttempts: int): (r: (RetryResult, nat))
    ensures r.1 <= (if maxAttempts > 0 then maxAttempts else 0)
    ensures forall j :: 0 <= j < r.1 - 1 ==> Retryable(attempt(j), retryOn)
    ensures r.0.Succeeded? ==> r.1 >= 1 && attempt(r.1 - 1) == Returned(r.0.v)
    ensures r.0.Reraised? ==> r.1 >= 1 && attempt(r.1 - 1) == Threw(r.0.f) && !retryOn(r.0.f.kind)
    ensures r.0.Exhausted? ==>
      r.1 == (if maxAttempts > 0 then maxAttempts else 0)
      && (forall j :: 0 <= j < r.1 ==> Retryable(attempt(j), retryOn))
      && r.0.last == (if r.1 == 0 then None else Some(attempt(r.1 - 1).f))
  {
    var n: nat := if maxAttempts > 0 then maxAttempts else 0;
    var k := StopAt(attempt, retryOn, 0, n);
    if k < n then
      (match attempt(k)
       case Returned(v) => Succeeded(v)
       case Threw(f) => Reraised(f), k + 1)
    else (Exhausted(if n > 0 then Some(attempt(n - 1).f) else None), n)
  }

  /** `execute_with_retry`: the attempts in order, returning or re-raising as soon as the loop ends. */
  method ExecuteWithRetry(attempt: nat -> Outcome, retryOn: string -> bool, maxAttempts: int)
    returns (r: RetryResult, calls: nat)
    ensures (r, calls) == RetryOutcome(attempt, retryOn, maxAttempts)
  {
    var n: nat := if maxAttempts > 0 then maxAttempts else 0;
    var last: Option<Fault> := None;
    calls := 0;
    var i := 0;
    while i < maxAttempts
      invariant 0 <= i <= n && calls == i
      invariant StopAt(attempt, retryOn, 0, n) >= i
      invariant last == (if i == 0 then None else Some(attempt(i - 1).f))
    {
      calls := calls + 1;
      match attempt(i) {
        case Returned(v) =>
          return Succeeded(v), calls;
        case Threw(f) =>
          last := Some(f);
          if !retryOn(f.kind) {
            return Reraised(f), calls;
          }
      }
      i := i + 1;
    }
    r := Exhausted(last);
  }

  // ---------------------------------------------------------------------
  // Fallback

  /**
   * `_execute_fallback` after the call raised `original`: the fallback
   * function's value if it has one and it succeeds; otherwise the fallback
   * value if it is not None; otherwise the original exception again.
   */
  function Fallback(hasFunction: bool, fnResult: Outcome, fallbackValue: Value, original: Fault): (r: Outcome)
    ensures r.Threw? ==> r.f == original
    ensures r.Threw? <==> fallbackValue == Null && !(hasFunction && fnResult.Returned?)
    ensures hasFunction && fnResult.Returned? ==> r == fnResult
    ensures r.Returned? && !(hasFunction && fnResult.Returned?) ==> r.v == fallbackValue
  {
    if hasFunction && fnResult.Returned? then fnResult
    else if fallbackValue != Null then Returned(fallbackValue)
    else Threw(original)
  }

  /** `FallbackConfig`, with `hasFunction` telling whether a fallback function is configured. */
  datatype FallbackConfig = FallbackConfig(hasFunction: bool, fallbackValue: Value, useCache: bool, cacheTtl: int)

  /** The handler's cache of successful results and their timestamps. */
  datatype FallbackCache = FallbackCache(results: map<string, Value>, stamps: map<string, int>)

  /** One `execute_with_fallback`: the new cache, the outcome, and whether the function ran. */
  datatype FallbackRun = FallbackRun(cache: FallbackCache, result: Outcome, invoked: bool)

  /** `_is_cache_valid`: a timestamp younger than `cache_ttl`. */
  predicate Fresh(c: FallbackCache, cfg: FallbackConfig, key: string, now: int)
  {
    key in c.stamps && now - c.stamps[key] < cfg.cacheTtl
  }

  /**
   * `execute_with_fallback` with `key` the call's cache key, `o` the call's
   * outcome and `fnResult` the fallback function's.
   */
  function FallbackStep(c: FallbackCache, cfg: FallbackConfig, key: string, o: Outcome, fnResult: Outcome, now: int)
    : FallbackRun
    requires c.results.Keys == c.stamps.Keys
  {
    if cfg.useCache && key in c.results && Fresh(c, cfg, key, now) then FallbackRun(c, Returned(c.results[key]), false)
    else
      var c' := if cfg.useCache && key in c.results
                then FallbackCache(c.results - {key}, c.stamps - {key}) else c;
      match o
      case Returned(v) =>
        var c'' := if cfg.useCache then FallbackCache(c'.results[key := v], c'.stamps[key := now]) else c';
        FallbackRun(c'', o, true)
      case Threw(f) => FallbackRun(c', Fallback(cfg.hasFunction, fnResult, cfg.fallbackValue, f), true)
  }

  /**
   * A fresh cached success is returned without running the function; a
   * stale one is dropped before the call; a success is cached with the
   * current time when caching is on; the result and timestamp maps keep the
   * same keys; and other keys are never touched.
   */
  lemma FallbackStepSpec(c: FallbackCache, cfg: FallbackConfig, key: string, o: Outcome, fnResult: Outcome, now: int)
    requires c.results.Keys == c.stamps.Keys
    ensures var r := FallbackStep(c, cfg, key, o, fnResult, now);
      r.cache.results.Keys == r.cache.stamps.Keys
      && (forall k :: k != key ==> (k in r.cache.results <==> k in c.results))
      && (forall k :: k != key && k in c.results ==> r.cache.results[k] == c.results[k] && r.cache.stamps[k] == c.stamps[k])
    ensures var r := FallbackStep(c, cfg, key, o, fnResult, now);
      cfg.useCache && key in c.results && Fresh(c, cfg, key, now) ==>
      r == FallbackRun(c, Returned(c.results[key]), false)
    ensures var r := FallbackStep(c, cfg, key, o, fnResult, now);
      !(cfg.useCache && key in c.results && Fresh(c, cfg, key, now)) ==>
      r.invoked && (o.Returned? ==> r.result == o)
      && (o.Threw? ==> r.result == Fallback(cfg.hasFunction, fnResult, cfg.fallbackValue, o.f))
      && (cfg.useCache && o.Returned? ==> key in r.cache.results && r.cache.results[key] == o.v && r.cache.stamps[key] == now)
      && (cfg.useCache && o.Threw? ==> key !in r.cache.results)
      && (!cfg.useCache ==> r.cache == c)
  {
  }

  class FallbackHandler {
    const config: FallbackConfig
    var results: map<string, Value>
    var stamps: map<string, int>

    function Model(): FallbackCache
      reads this
    {
      FallbackCache(results, stamps)
    }

    ghost predicate Valid()
      reads this
    {
      results.Keys == stamps.Keys
    }

    constructor (config: FallbackConfig)
      ensures this.config == config && results == map[] && stamps == map[] && Valid()
    {
      this.config := config;
      results := map[];
      stamps := map[];
    }

    /** `execute_with_fallback`. */
    method ExecuteWithFallback(key: string, o: Outcome, fnResult: Outcome, now: int) returns (r: Outcome, invoked: bool)
      requires Valid()
      modifies this
      ensures Valid()
      ensures FallbackRun(Model(), r, invoked) == FallbackStep(old(Model()), config, key, o, fnResult, now)
    {
      FallbackStepSpec(Model(), config, key, o, fnResult, now);
      if config.useCache && key in results {
        if key in stamps && now - stamps[key] < config.cacheTtl {
          return Returned(results[key]), false;
        }
        results := results - {key};
        stamps := stamps - {key};
      }
      invoked := true;
      match o {
        case Returned(v) =>
          if config.useCache {
            results := results[key := v];
            stamps := stamps[key := now];
          }
          r := o;
        case Threw(f) =>
          r := Fallback(config.hasFunction, fnResult, config.fallbackValue, f);
      }
    }
  }
}
