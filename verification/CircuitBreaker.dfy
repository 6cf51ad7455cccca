/** The circuit breaker that all backends share (reliability/circuit.go). */
module CircuitBreakers {

  datatype CircuitState = Closed | Open | HalfOpen

  /** The breaker on values; times are in nanoseconds. */
  datatype Breaker = Breaker(enabled: bool, threshold: int, cooldown: int,
                             state: CircuitState, failures: nat, openedAt: int, probeActive: bool)

  /** Allow: the new state, and whether the request may go out. */
  function Admit(b: Breaker, now: int): (Breaker, bool) {
    if !b.enabled || b.state == Closed then (b, true)
    else
      var b1 := if b.state == Open && now - b.openedAt >= b.cooldown
                then b.(state := HalfOpen, probeActive := false) else b;
      if b1.state == HalfOpen && !b1.probeActive then (b1.(probeActive := true), true)
      else (b1, false)
  }

  function Succeeded(b: Breaker): Breaker {
    if !b.enabled then b else b.(failures := 0, state := Closed, probeActive := false)
  }

  function Failed(b: Breaker, now: int): Breaker {
    if !b.enabled then b
    else if b.state == HalfOpen || b.failures + 1 >= b.threshold then
      b.(failures := b.failures + 1, probeActive := false, state := Open, openedAt := now)
    else b.(failures := b.failures + 1, probeActive := false)
  }

  class CircuitBreaker {
    const enabled: bool
    const threshold: int
    const cooldown: int
    var state: CircuitState
    var failures: nat
    var openedAt: int
    var probeActive: bool
    var lastSuccess: int
    var lastFailure: int
    var lastError: string

    ghost function Current(): Breaker
      reads this
    {
      Breaker(enabled, threshold, cooldown, state, failures, openedAt, probeActive)
    }

    constructor (enabled: bool, threshold: int, cooldown: int)
      ensures Current() == Breaker(enabled, if threshold <= 0 then 3 else threshold,
                                   if cooldown <= 0 then 30_000_000_000 else cooldown, Closed, 0, 0, false)
    {
      this.enabled := enabled;
      this.threshold := if threshold <= 0 then 3 else threshold;
      this.cooldown := if cooldown <= 0 then 30_000_000_000 else cooldown;
      state, failures, openedAt, probeActive := Closed, 0, 0, false;
      lastSuccess, lastFailure, lastError := 0, 0, "";
    }

    method Allow(now: int) returns (ok: bool)
      modifies this`state, this`probeActive
      ensures Current() == Admit(old(Current()), now).0
      ensures ok == Admit(old(Current()), now).1
    {
      if !enabled {
        return true;
      }
      if state == Closed {
        return true;
      }
      if state == Open && now - openedAt >= cooldown {
        state := HalfOpen;
        probeActive := false;
      }
      if state == HalfOpen && !probeActive {
        probeActive := true;
        return true;
      }
      return false;
    }

    method RecordSuccess(now: int)
      modifies this
      ensures Current() == Succeeded(old(Current()))
    {
      if !enabled {
        return;
      }
      failures := 0;
      state := Closed;
      probeActive := false;
      lastSuccess := now;
      lastError := "";
    }

    method RecordFailure(now: int, error: string)
      modifies this
      ensures Current() == Failed(old(Current()), now)
    {
      if !enabled {
        return;
      }
      failures := failures + 1;
      lastFailure := now;
      lastError := error;
      probeActive := false;
      if state == HalfOpen || failures >= threshold {
        state := Open;
        openedAt := now;
      }
    }
  }
}
