/** BackendExecutor.Do: one request to one backend, retried, and reported to the shared breaker
    (reliability/retry.go). */
module Executors {
  import opened CircuitBreakers

  /** What a read of the response body would yield first. */
  datatype Body = Text(text: string) | Unreadable(message: string)

  /** What one call of the HTTP client comes back with. */
  datatype Outcome = Response(status: int, body: Body) | Failure(message: string)

  datatype Error = CircuitOpen | Transport(message: string) | BadRequest(message: string) | NoBackend

  /** The pair of a response and an error: never neither, never both. */
  datatype Reply = Reply(status: int, body: Body) | Error(error: Error)

  datatype Report = Success | Failed

  function ReplyOf(o: Outcome): Reply {
    match o
    case Response(status, body) => Reply(status, body)
    case Failure(message) => Error(Transport(message))
  }

  predicate RetryableStatus(status: int) {
    status == 429 || status == 502 || status == 503 || status == 504
  }

  /** An outcome that ends the attempts and counts as a success. */
  predicate Settled(o: Outcome) {
    o.Response? && !RetryableStatus(o.status)
  }

  function ReportOf(o: Outcome): Report {
    if Settled(o) then Success else Failed
  }

  function Reported(b: Breaker, r: Report, now: int): Breaker {
    if r.Success? then Succeeded(b) else CircuitBreakers.Failed(b, now)
  }

  /** A nil breaker admits everything and records nothing, like a disabled one. */
  ghost function Current(breaker: CircuitBreaker?): Breaker
    reads breaker
  {
    if breaker == null then Breaker(false, 0, 0, Closed, 0, 0, false) else breaker.Current()
  }

  datatype RetryConfig = RetryConfig(enabled: bool, maxAttempts: int, initialBackoff: int, maxBackoff: int)

  function Attempts(config: RetryConfig, retryable: bool): (n: nat)
    ensures n >= 1
  {
    if !retryable || !config.enabled then 1 else if config.maxAttempts <= 0 then 3 else config.maxAttempts
  }

  function InitialBackoff(config: RetryConfig): (d: int)
    ensures d > 0
  {
    if config.initialBackoff <= 0 then 200_000_000 else config.initialBackoff
  }

  function MaxBackoff(config: RetryConfig): (d: int)
    ensures d > 0
  {
    if config.maxBackoff <= 0 then 2_000_000_000 else config.maxBackoff
  }

  /** The attempt whose outcome is returned: the first that settles the request, else the last one allowed. */
  function Decisive(outcomes: nat -> Outcome, from: nat, n: nat): (k: nat)
    requires from <= n
    ensures from <= k <= n
    ensures forall i :: from <= i < k ==> !Settled(outcomes(i))
    ensures Settled(outcomes(k)) || k == n
    decreases n - from
  {
    if from == n || Settled(outcomes(from)) then from else Decisive(outcomes, from + 1, n)
  }

  // ---- Backoff ----

  const INT64_LIMIT: int := 0x8000_0000_0000_0000

  function Doubled(x: int, times: nat): int {
    if times == 0 then x else 2 * Doubled(x, times - 1)
  }

  /** retryDelay, in nanoseconds. A product of 2^63 or more does not fit time.Duration; the platform decides what the
      conversion makes of it, so that is a parameter. */
  function RetryDelay(initial: int, max: int, attempt: nat, overflow: int): int
    requires attempt >= 1
  {
    var product := Doubled(initial, attempt - 1);
    var delay := if product < INT64_LIMIT then product else overflow;
    if delay > max then max else delay
  }

  function Delays(initial: int, max: int, n: nat, overflow: int): (d: seq<int>)
    ensures |d| == n
  {
    seq(n, i requires 0 <= i < n => RetryDelay(initial, max, i + 1, overflow))
  }

  lemma DelaysSnoc(initial: int, max: int, n: nat, overflow: int)
    ensures Delays(initial, max, n + 1, overflow) ==
      Delays(initial, max, n, overflow) + [RetryDelay(initial, max, n + 1, overflow)]
    ensures Delays(initial, max, n + 1, overflow)[..n] == Delays(initial, max, n, overflow)
  {
    hide RetryDelay;
  }

  /** time.Sleep returns at once from a negative duration. */
  function Slept(delays: seq<int>): int {
    if delays == [] then 0
    else Slept(delays[..|delays| - 1]) + if delays[|delays| - 1] > 0 then delays[|delays| - 1] else 0
  }

  lemma {:induction false} DoubledGrows(x: int, i: nat, j: nat)
    requires x > 0 && i <= j
    ensures 0 < Doubled(x, i) <= Doubled(x, j)
    ensures i < j ==> 2 * Doubled(x, i) <= Doubled(x, j)
    decreases j
  {
    if i < j {
      DoubledGrows(x, i, j - 1);
    } else if i > 0 {
      DoubledGrows(x, i - 1, j - 1);
    }
  }

  /** Whatever overflow does, `n` waits never take more than `n` times the maximum. */
  lemma {:induction false} SleepBound(initial: int, max: int, n: nat, overflow: int)
    requires max > 0
    ensures Slept(Delays(initial, max, n, overflow)) <= n * max
  {
    if n > 0 {
      DelaysSnoc(initial, max, n - 1, overflow);
      SleepBound(initial, max, n - 1, overflow);
      assert n * max == (n - 1) * max + max;
    }
  }

  /** Below the maximum the waits double, so they add up to one wait more than all of them, less the first. */
  lemma {:induction false} SleepDoubles(initial: int, max: int, n: nat, overflow: int)
    requires 0 < initial <= max < INT64_LIMIT && (n > 0 ==> Doubled(initial, n - 1) <= max)
    ensures Slept(Delays(initial, max, n, overflow)) == Doubled(initial, n) - initial
  {
    if n > 0 {
      DelaysSnoc(initial, max, n - 1, overflow);
      DoubledGrows(initial, n - 1, n - 1);
      if n > 1 { DoubledGrows(initial, n - 2, n - 1); }
      SleepDoubles(initial, max, n - 1, overflow);
    }
  }

  /** Where an overflowing conversion gives the most negative duration: the first `n` retries all wait exactly as long
      as the last product still fits. */
  lemma WaitsIff(initial: int, max: int, n: nat, overflow: int)
    requires initial > 0 && max > 0 && overflow <= 0 && n >= 1
    ensures (forall k :: 1 <= k <= n ==> RetryDelay(initial, max, k, overflow) > 0) <==>
      Doubled(initial, n - 1) < INT64_LIMIT
  {
    if Doubled(initial, n - 1) < INT64_LIMIT {
      forall k | 1 <= k <= n ensures RetryDelay(initial, max, k, overflow) > 0 {
        DoubledGrows(initial, k - 1, n - 1);
      }
    } else {
      assert RetryDelay(initial, max, n, overflow) <= 0;
    }
  }

  lemma {:induction false} DoubledTwice(x: int, i: nat, j: nat)
    ensures Doubled(x, i + j) == Doubled(Doubled(x, i), j)
  {
    if j > 0 { DoubledTwice(x, i, j - 1); }
  }

  /** With the default backoff that is so up to the 36th retry. */
  lemma DefaultBackoffOverflows(overflow: int)
    requires overflow <= 0
    ensures RetryDelay(200_000_000, 2_000_000_000, 36, overflow) == 2_000_000_000
    ensures RetryDelay(200_000_000, 2_000_000_000, 37, overflow) <= 0
  {
    DoubledTwice(200_000_000, 6, 6);
    DoubledTwice(200_000_000, 12, 12);
    DoubledTwice(200_000_000, 24, 11);
    DoubledTwice(200_000_000, 24, 12);
    Sixfold(200_000_000);
    Sixfold(Doubled(200_000_000, 6));
    Twelvefold(Doubled(200_000_000, 12));
    Twelvefold(Doubled(200_000_000, 24));
    assert Doubled(200_000_000, 36) == 2 * Doubled(200_000_000, 35);
  }

  lemma Sixfold(x: int)
    ensures Doubled(x, 6) == 64 * x
  {
    DoubledTwice(x, 1, 1);
    DoubledTwice(x, 2, 2);
    DoubledTwice(x, 4, 2);
    assert Doubled(x, 1) == 2 * x && Doubled(x, 2) == 4 * x;
    assert Doubled(4 * x, 1) == 8 * x && Doubled(4 * x, 2) == 16 * x;
    assert Doubled(16 * x, 1) == 32 * x && Doubled(16 * x, 2) == 64 * x;
  }

  lemma Twelvefold(x: int)
    ensures Doubled(x, 12) == 4096 * x
  {
    DoubledTwice(x, 6, 6);
    Sixfold(x);
    Sixfold(Doubled(x, 6));
  }

  // ---- The executor ----

  /** The guarded calls on a breaker that may be nil. */
  method Allowed(breaker: CircuitBreaker?, now: int) returns (ok: bool)
    modifies breaker
    ensures (Current(breaker), ok) == Admit(old(Current(breaker)), now)
  {
    if breaker == null {
      return true;
    }
    ok := breaker.Allow(now);
  }

  method Record(breaker: CircuitBreaker?, r: Report, now: int, message: string) returns (reports: seq<Report>)
    modifies breaker
    ensures Current(breaker) == Reported(old(Current(breaker)), r, now)
    ensures reports == if breaker == null then [] else [r]
  {
    if breaker == null {
      return [];
    }
    if r.Success? {
      breaker.RecordSuccess(now);
    } else {
      breaker.RecordFailure(now, message);
    }
    return [r];
  }

  class BackendExecutor {
    const breaker: CircuitBreaker?
    const config: RetryConfig

    constructor (breaker: CircuitBreaker?, config: RetryConfig)
      ensures this.breaker == breaker && this.config == config
    {
      this.breaker, this.config := breaker, config;
    }

    /** `outcomes(k)` is what the k-th call to the backend would come back with. Besides the reply: how often the
        backend was called, the durations passed to Sleep, and the reports made to the breaker. */
    method Do(outcomes: nat -> Outcome, retryable: bool, begin: int, end: int, overflow: int)
      returns (reply: Reply, attempts: nat, sleeps: seq<int>, reports: seq<Report>)
      modifies breaker
      ensures var (b, admitted) := Admit(old(Current(breaker)), begin);
        if !admitted then
          reply == Error(CircuitOpen) && attempts == 0 && sleeps == [] && reports == [] && Current(breaker) == b
        else
          attempts == Decisive(outcomes, 1, Attempts(config, retryable)) && reply == ReplyOf(outcomes(attempts)) &&
          sleeps == Delays(InitialBackoff(config), MaxBackoff(config), attempts - 1, overflow) &&
          reports == (if breaker == null then [] else [ReportOf(outcomes(attempts))]) &&
          Current(breaker) == Reported(b, ReportOf(outcomes(attempts)), end)
    {
      hide Delays, Admit, Reported, Current, Decisive;
      var admitted := Allowed(breaker, begin);
      if !admitted {
        return Error(CircuitOpen), 0, [], [];
      }
      var maxAttempts := 1;
      if retryable && config.enabled {
        maxAttempts := config.maxAttempts;
        if maxAttempts <= 0 {
          maxAttempts := 3;
        }
      }
      var backoff := config.initialBackoff;
      if backoff <= 0 {
        backoff := 200_000_000;
      }
      var maxBackoff := config.maxBackoff;
      if maxBackoff <= 0 {
        maxBackoff := 2_000_000_000;
      }
      reply, attempts, sleeps, reports := Retry(outcomes, maxAttempts, backoff, maxBackoff, end, overflow);
    }

    /** The attempt loop of Do. */
    method Retry(outcomes: nat -> Outcome, maxAttempts: nat, backoff: int, maxBackoff: int, end: int, overflow: int)
      returns (reply: Reply, attempts: nat, sleeps: seq<int>, reports: seq<Report>)
      requires maxAttempts >= 1
      modifies breaker
      ensures attempts == Decisive(outcomes, 1, maxAttempts) && reply == ReplyOf(outcomes(attempts))
      ensures sleeps == Delays(backoff, maxBackoff, attempts - 1, overflow)
      ensures reports == if breaker == null then [] else [ReportOf(outcomes(attempts))]
      ensures Current(breaker) == Reported(old(Current(breaker)), ReportOf(outcomes(attempts)), end)
    {
      hide RetryDelay, Delays, Reported, Current;
      sleeps, attempts := [], 0;
      assert Delays(backoff, maxBackoff, 0, overflow) == [];
      var attempt: nat := 1;
      while attempt <= maxAttempts
        invariant 1 <= attempt <= maxAttempts && attempts == attempt - 1
        invariant Decisive(outcomes, 1, maxAttempts) == Decisive(outcomes, attempt, maxAttempts)
        invariant sleeps == Delays(backoff, maxBackoff, attempt - 1, overflow)
        invariant Current(breaker) == old(Current(breaker))
      {
        attempts := attempts + 1;
        var outcome := outcomes(attempt);
        if outcome.Response? && !RetryableStatus(outcome.status) {
          reports := Record(breaker, Success, end, "");
          return Reply(outcome.status, outcome.body), attempts, sleeps, reports;
        }
        if outcome.Response? && attempt == maxAttempts {
          reports := Record(breaker, Failed, end, "status");
          return Reply(outcome.status, outcome.body), attempts, sleeps, reports;
        }
        // Every transport error may be retried.
        if outcome.Failure? && attempt == maxAttempts {
          reports := Record(breaker, Failed, end, outcome.message);
          return Error(Transport(outcome.message)), attempts, sleeps, reports;
        }
        if attempt < maxAttempts {
          DelaysSnoc(backoff, maxBackoff, attempt - 1, overflow);
          sleeps := sleeps + [RetryDelay(backoff, maxBackoff, attempt, overflow)];
        }
        attempt := attempt + 1;
      }
      assert false;
    }
  }

  // ---- In terms of the settings ----

  /** Main result on what a request comes to: with retries allowed there are as many attempts as configured, three if
      that is no positive number, and one without; the last one made is the first that brings a response with another
      status than 429, 502, 503 and 504, or the last one allowed; it counts as a success exactly in the first case. */
  lemma AttemptsLaw(config: RetryConfig, retryable: bool, outcomes: nat -> Outcome)
    ensures var most := if retryable &&
      config.enabled then if config.maxAttempts > 0 then config.maxAttempts else 3 else 1;
      var k := Decisive(outcomes, 1, Attempts(config, retryable));
      1 <= k <= most &&
      (forall i :: 1 <= i < k ==> outcomes(i).Failure? || outcomes(i).status in {429, 502, 503, 504}) &&
      (outcomes(k).Response? && outcomes(k).status !in {429, 502, 503, 504} ==> ReportOf(outcomes(k)) == Success) &&
      (outcomes(k).Failure? || outcomes(k).status in {429, 502, 503, 504} ==>
         k == most && ReportOf(outcomes(k)) == Failed)
  {
  }

  /** The k-th wait is the initial backoff, doubled k - 1 times, but no more than the maximum, unless that overflows;
      both are as configured, or 200 milliseconds and 2 seconds. */
  lemma WaitLaw(config: RetryConfig, k: nat, overflow: int)
    requires k >= 1
    ensures var initial := if config.initialBackoff > 0 then config.initialBackoff else 200_000_000;
      var most := if config.maxBackoff > 0 then config.maxBackoff else 2_000_000_000;
      var wait := RetryDelay(InitialBackoff(config), MaxBackoff(config), k, overflow);
      (Doubled(initial, k - 1) <= most && Doubled(initial, k - 1) < INT64_LIMIT ==> wait == Doubled(initial, k - 1)) &&
      (most < Doubled(initial, k - 1) < INT64_LIMIT ==> wait == most)
  {
  }
}
