/** The breaker under any interleaving of requests in flight and health-monitor reports. */
module BreakerRuns {
  import opened CircuitBreakers

  /** A request asks to go out, an admitted request reports, or the health monitor reports. */
  datatype Event =
    | Begin(id: nat, at: int)
    | Ok(id: nat, at: int)
    | Bad(id: nat, at: int)
    | HealthOk(at: int)
    | HealthBad(at: int)
  {
    predicate Success() { Ok? || HealthOk? }
    predicate Failure() { Bad? || HealthBad? }
  }

  /** The breaker, the admitted requests that have not reported yet, and the last one admitted while not closed. */
  datatype System = System(breaker: Breaker, inFlight: set<nat>, probe: nat)

  function Step(s: System, e: Event): System {
    match e
    case Begin(id, at) =>
      var (b, ok) := Admit(s.breaker, at);
      if !ok then s.(breaker := b)
      else System(b, s.inFlight + {id}, if s.breaker.state == Closed then s.probe else id)
    case Ok(id, at) => System(Succeeded(s.breaker), s.inFlight - {id}, s.probe)
    case Bad(id, at) => System(Failed(s.breaker, at), s.inFlight - {id}, s.probe)
    case HealthOk(at) => s.(breaker := Succeeded(s.breaker))
    case HealthBad(at) => s.(breaker := Failed(s.breaker, at))
  }

  /** Requests have fresh ids, only admitted requests report, each once, and time does not run back. */
  predicate Possible(s: System, clock: int, e: Event) {
    clock <= e.at &&
    match e
    case Begin(id, _) => id !in s.inFlight
    case Ok(id, _) => id in s.inFlight
    case Bad(id, _) => id in s.inFlight
    case _ => true
  }

  predicate Inv(s: System, clock: int) {
    var b := s.breaker;
    b.enabled && b.threshold > 0 && b.cooldown > 0 &&
    (b.state == Closed <==> b.failures < b.threshold) &&
    (b.state == HalfOpen <==> b.probeActive) &&
    (b.probeActive ==> s.probe in s.inFlight) &&
    (b.state != Closed ==> b.openedAt <= clock)
  }

  lemma StepKeeps(s: System, clock: int, e: Event)
    requires Inv(s, clock) && Possible(s, clock, e)
    ensures Inv(Step(s, e), e.at)
  {
  }

  function Run(s: System, events: seq<Event>): System
    decreases events
  {
    if events == [] then s else Run(Step(s, events[0]), events[1..])
  }

  predicate AllPossible(s: System, clock: int, events: seq<Event>)
    decreases events
  {
    events == [] || (Possible(s, clock, events[0]) && AllPossible(Step(s, events[0]), events[0].at, events[1..]))
  }

  function EndClock(clock: int, events: seq<Event>): int {
    if events == [] then clock else events[|events| - 1].at
  }

  function Fresh(threshold: int, cooldown: int): System {
    System(Breaker(true, threshold, cooldown, Closed, 0, 0, false), {}, 0)
  }

  lemma {:induction false} RunKeeps(s: System, clock: int, events: seq<Event>)
    requires Inv(s, clock) && AllPossible(s, clock, events)
    ensures Inv(Run(s, events), EndClock(clock, events))
    decreases events
  {
    hide Inv, Possible, Step;
    if events != [] {
      StepKeeps(s, clock, events[0]);
      RunKeeps(Step(s, events[0]), events[0].at, events[1..]);
    }
  }

  /** Failures reported since the last reported success, given `n` before. */
  function FailuresSince(n: nat, events: seq<Event>): nat
    decreases events
  {
    if events == [] then n
    else FailuresSince(if events[0].Success() then 0 else if events[0].Failure() then n + 1 else n, events[1..])
  }

  lemma {:induction false} FailuresCounted(s: System, events: seq<Event>)
    requires s.breaker.enabled
    ensures Run(s, events).breaker.failures == FailuresSince(s.breaker.failures, events)
    ensures var b := Run(s, events).breaker;
      b.enabled && b.threshold == s.breaker.threshold && b.cooldown == s.breaker.cooldown
    decreases events
  {
    if events != [] {
      FailuresCounted(Step(s, events[0]), events[1..]);
    }
  }

  /** Main result. Whatever requests and health probes interleave: the circuit is closed exactly while fewer than
      `threshold` failures were reported since the last success, and it is half open exactly while a probe is active,
      that is, while the last request admitted with the circuit not closed has not reported. */
  lemma BreakerState(threshold: int, cooldown: int, clock: int, events: seq<Event>)
    requires threshold > 0 && cooldown > 0 && AllPossible(Fresh(threshold, cooldown), clock, events)
    ensures var s := Run(Fresh(threshold, cooldown), events);
      (s.breaker.state == Closed <==> FailuresSince(0, events) < threshold) &&
      (s.breaker.state == HalfOpen <==> s.breaker.probeActive) &&
      (s.breaker.probeActive ==> s.probe in s.inFlight)
  {
    hide AllPossible, Run, FailuresSince;
    RunKeeps(Fresh(threshold, cooldown), clock, events);
    FailuresCounted(Fresh(threshold, cooldown), events);
  }

  /** Never stuck: a request is refused exactly while the cooldown runs or an admitted probe has not reported;
      so with nothing in flight and the cooldown over, the next request goes out. */
  lemma RefusedIff(s: System, clock: int, now: int)
    requires Inv(s, clock) && clock <= now
    ensures !Admit(s.breaker, now).1 <==>
      (s.breaker.state == Open && now - s.breaker.openedAt < s.breaker.cooldown) ||
      (s.breaker.state == HalfOpen && s.probe in s.inFlight)
    ensures s.inFlight == {} && (s.breaker.state == Open ==> now - s.breaker.openedAt >= s.breaker.cooldown) ==>
      Admit(s.breaker, now).1
  {
  }

  // ---- Spacing of admissions ----

  /** The times at which requests are admitted. */
  function Admissions(s: System, events: seq<Event>): seq<int>
    decreases events
  {
    if events == [] then []
    else
      (if events[0].Begin? && Admit(s.breaker, events[0].at).1 then [events[0].at] else [])
      + Admissions(Step(s, events[0]), events[1..])
  }

  predicate NoSuccess(events: seq<Event>) {
    forall i :: 0 <= i < |events| ==> !events[i].Success()
  }

  /** Nothing goes out before this time, unless a success is reported. */
  function Earliest(b: Breaker, clock: int): int {
    if b.state == Open then b.openedAt + b.cooldown else clock + b.cooldown
  }

  /** Each time is at least `gap` after the one before, the first one at least `from`. */
  predicate Spaced(times: seq<int>, from: int, gap: int)
    decreases times
  {
    times == [] || (from <= times[0] && Spaced(times[1..], times[0] + gap, gap))
  }

  lemma {:induction false} SpacedLater(times: seq<int>, from: int, later: int, gap: int)
    requires Spaced(times, later, gap) && from <= later
    ensures Spaced(times, from, gap)
  {
  }

  lemma SpacingStep(s: System, clock: int, e: Event)
    requires Inv(s, clock) && Possible(s, clock, e) && s.breaker.state != Closed && !e.Success()
    ensures var b := Step(s, e).breaker;
      b.state != Closed && b.cooldown == s.breaker.cooldown && Earliest(s.breaker, clock) <= Earliest(b, e.at) &&
      (e.Begin? && Admit(s.breaker, e.at).1 ==>
        Earliest(s.breaker, clock) <= e.at && e.at + b.cooldown <= Earliest(b, e.at))
  {
  }

  /** Main result. From any state that is not closed, until the next reported success, admissions are at least one
      cooldown apart, the first one a cooldown after the circuit last opened; late failures only push them back. */
  lemma {:induction false} AdmissionsSpaced(s: System, clock: int, events: seq<Event>)
    requires Inv(s, clock) && s.breaker.state != Closed && AllPossible(s, clock, events) && NoSuccess(events)
    ensures Spaced(Admissions(s, events), Earliest(s.breaker, clock), s.breaker.cooldown)
    decreases events
  {
    hide Inv, Possible, Step, Admit, Earliest;
    if events != [] {
      var (e, next) := (events[0], Step(s, events[0]));
      assert !e.Success();
      StepKeeps(s, clock, e);
      SpacingStep(s, clock, e);
      assert NoSuccess(events[1..]) by {
        assert forall i :: 0 <= i < |events[1..]| ==> events[1..][i] == events[i + 1];
      }
      AdmissionsSpaced(next, e.at, events[1..]);
      var rest := Admissions(next, events[1..]);
      if e.Begin? && Admit(s.breaker, e.at).1 {
        SpacedLater(rest, e.at + s.breaker.cooldown, Earliest(next.breaker, e.at), s.breaker.cooldown);
        assert ([e.at] + rest)[1..] == rest;
      } else {
        SpacedLater(rest, Earliest(s.breaker, clock), Earliest(next.breaker, e.at), s.breaker.cooldown);
        assert [] + rest == rest;
      }
    }
  }

  lemma {:induction false} SpacedCount(times: seq<int>, from: int, gap: int)
    requires Spaced(times, from, gap) && gap > 0 && times != []
    ensures (|times| - 1) * gap <= times[|times| - 1] - times[0]
  {
    if |times| > 1 {
      SpacedCount(times[1..], times[0] + gap, gap);
      assert (|times| - 1) * gap == (|times| - 2) * gap + gap;
    }
  }

  /** So a span of length T without a reported success admits at most T / cooldown + 1 requests. */
  lemma AdmissionBound(s: System, clock: int, events: seq<Event>, span: nat)
    requires Inv(s, clock) && s.breaker.state != Closed && AllPossible(s, clock, events) && NoSuccess(events)
    requires var times := Admissions(s, events); times != [] ==> times[|times| - 1] - times[0] <= span
    ensures |Admissions(s, events)| <= span / s.breaker.cooldown + 1
  {
    hide Admissions, AllPossible, Spaced;
    AdmissionsSpaced(s, clock, events);
    var times, gap := Admissions(s, events), s.breaker.cooldown;
    if times != [] {
      SpacedCount(times, Earliest(s.breaker, clock), gap);
      Quotient(|times| - 1, span, gap);
    }
  }

  lemma Quotient(n: nat, span: nat, gap: int)
    requires gap > 0 && n * gap <= span
    ensures n <= span / gap
  {
    var q := span / gap;
    assert span < (q + 1) * gap;
    assert n * gap < (q + 1) * gap;
    Cancel(n, q + 1, gap);
  }

  lemma Cancel(a: int, b: int, gap: int)
    requires gap > 0 && a * gap < b * gap
    ensures a < b
  {
  }
}
