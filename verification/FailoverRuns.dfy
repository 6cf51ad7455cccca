/** What failover over a shared breaker guarantees, and where the breaker defeats it. */
module FailoverRuns {
  import opened CircuitBreakers
  import opened Executors
  import opened Failovers
  import B = BreakerRuns
  import Strings

  /** What a target replies when it is asked. */
  function OwnReply(path: Path, t: Target): Reply
    requires path.Valid()
  {
    ReplyOf(Decided(path, t))
  }

  predicate Refused(r: Reply) {
    r == Error(CircuitOpen)
  }

  lemma SentCases(path: Path, b: Breaker, t: Target)
    requires path.Valid()
    ensures Refused(Sent(path, b, t).1) <==> !Admit(b, t.begin).1
    ensures !Refused(Sent(path, b, t).1) ==> Sent(path, b, t).1 == OwnReply(path, t)
  {
    hide Admit, Reported, Decided;
  }

  /** Some pattern that is not empty occurs in the text. */
  ghost predicate Occurs(patterns: seq<string>, text: string) {
    exists p: string, i: nat :: p in patterns && p != "" && Strings.OccursAt(text, i, p)
  }

  /** Which replies are passed on while other targets are left: responses under a status that is not listed; and on the
      streaming path, if patterns are configured, a response under 2xx only if its body can be read and holds none of
      them. The empty pattern counts for nothing. */
  lemma PassedOnIff(config: Config, path: Path, r: Reply)
    ensures Acceptable(config, path, r) <==>
      r.Reply? && (forall i :: 0 <= i < |config.statusCodes| ==> config.statusCodes[i] != r.status) &&
      (path.Batch? || config.patterns == [] || r.status < 200 || 300 <= r.status ||
       (r.body.Text? && !Occurs(config.patterns, r.body.text)))
  {
    hide Occurs, Matched, Strings.Index;
    if r.Reply? && r.body.Text? { MatchedIff(config.patterns, r.body.text); }
  }

  lemma MatchedIff(patterns: seq<string>, text: string)
    ensures Matched(patterns, text) <==> Occurs(patterns, text)
  {
    hide Strings.Index, Strings.OccursAt;
    if Matched(patterns, text) {
      var i :| 0 <= i < |patterns| && patterns[i] != "" && Strings.Index(text, patterns[i]) >= 0;
      assert patterns[i] in patterns && Strings.OccursAt(text, Strings.Index(text, patterns[i]), patterns[i]);
    }
    if Occurs(patterns, text) {
      var p: string, i: nat :| p in patterns && p != "" && Strings.OccursAt(text, i, p);
      assert Strings.Index(text, p) >= 0;
    }
  }

  /** Main result on failover. The targets are tried in order, each at most once, and the caller gets the last reply:
      the first acceptable one, or a request that could not be built, or else what the last target replied. */
  lemma {:induction false} FailoverResult(config: Config, path: Path, b: Breaker, targets: seq<Target>)
    requires path.Valid() && targets != []
    ensures var replies := Tried(config, path, b, targets).1;
      var last := |replies| - 1;
      0 <= last < |targets| &&
      (forall k :: 0 <= k < last ==>
         config.failoverEnabled && targets[k].problem == "" && !Acceptable(config, path, replies[k])) &&
      (Acceptable(config, path, replies[last]) || targets[last].problem != "" || last == |targets| - 1 ||
       !config.failoverEnabled) &&
      (forall k :: 0 <= k <= last ==>
         replies[k] ==
           (if targets[k].problem != "" then Error(BadRequest(targets[k].problem)) else OwnReply(path, targets[k]))
         || (targets[k].problem == "" && Refused(replies[k])))
    decreases |targets|
  {
    hide Admit, Sent, Acceptable, OwnReply, Tried;
    TriedStep(config, path, b, targets);
    if targets[0].problem == "" {
      SentCases(path, b, targets[0]);
      var (b1, reply) := Sent(path, b, targets[0]);
      if config.failoverEnabled && |targets| > 1 && !Acceptable(config, path, reply) {
        var later := Tried(config, path, b1, targets[1..]).1;
        FailoverResult(config, path, b1, targets[1..]);
        var replies := [reply] + later;
        var last := |replies| - 1;
        forall k | 0 <= k < last
          ensures config.failoverEnabled && targets[k].problem == "" && !Acceptable(config, path, replies[k])
        {
          if k > 0 { assert replies[k] == later[k - 1] && targets[k] == targets[1..][k - 1]; }
        }
        forall k | 0 <= k <= last
          ensures replies[k] ==
            (if targets[k].problem != "" then Error(BadRequest(targets[k].problem)) else OwnReply(path, targets[k]))
                  || (targets[k].problem == "" && Refused(replies[k]))
        {
          if k > 0 { assert replies[k] == later[k - 1] && targets[k] == targets[1..][k - 1]; }
        }
        assert replies[last] == later[last - 1] && targets[last] == targets[1..][last - 1];
      }
    }
  }

  // ---- One breaker for all targets ----

  /** A target whose outcome the breaker counts as a failure, and which failover does not stop at. */
  predicate FailsOver(config: Config, path: Path, t: Target)
    requires path.Valid()
  {
    t.problem == "" && ReportFor(path, Decided(path, t)).Failed? && !Acceptable(config, path, OwnReply(path, t))
  }

  /** All targets are tried within one cooldown. */
  predicate WithinCooldown(cooldown: int, targets: seq<Target>) {
    forall j, k :: 0 <= j < k < |targets| ==> targets[k].begin - targets[j].end < cooldown
  }

  lemma RefusedOnce(path: Path, b: Breaker, t: Target)
    requires path.Valid() && b.enabled && b.state == Open && t.begin - b.openedAt < b.cooldown
    ensures Sent(path, b, t) == (b, Error(CircuitOpen))
  {
  }

  lemma {:induction false} AllRefused(config: Config, path: Path, b: Breaker, targets: seq<Target>, i: nat)
    requires path.Valid() && config.failoverEnabled && i < |targets|
    requires b.enabled && b.state == Open
    requires forall k :: 0 <= k <= i ==> targets[k].problem == "" && targets[k].begin - b.openedAt < b.cooldown
    ensures var replies := Tried(config, path, b, targets).1; |replies| > i && Refused(replies[i])
    decreases i
  {
    hide Admit, Sent, Acceptable, Tried;
    TriedStep(config, path, b, targets);
    RefusedOnce(path, b, targets[0]);
    Unacceptable(config, path, Error(CircuitOpen));
    if i > 0 {
      AllRefused(config, path, b, targets[1..], i - 1);
      var later := Tried(config, path, b, targets[1..]).1;
      assert ([Error(CircuitOpen)] + later)[i] == later[i - 1];
    }
  }

  lemma FailedOnce(path: Path, b: Breaker, t: Target)
    requires path.Valid() && b.enabled && b.state == Closed && b.failures < b.threshold
    ensures Sent(path, b, t).1 == OwnReply(path, t)
    ensures ReportFor(path, Decided(path, t)).Failed? ==>
      var b1 := Sent(path, b, t).0;
      b1.enabled && b1.threshold == b.threshold && b1.cooldown == b.cooldown && b1.failures == b.failures + 1 &&
      if b.failures + 1 < b.threshold then b1.state == Closed else b1.state == Open && b1.openedAt == t.end
  {
    hide Decided;
  }

  /** Main result on the shared breaker: when the targets before it fail within one cooldown, target `i` is asked
      exactly if their failures have not opened the circuit. Otherwise it is refused, however healthy it may be. */
  lemma {:induction false} ReachedIff(config: Config, path: Path, b: Breaker, targets: seq<Target>, i: nat)
    requires path.Valid() && config.failoverEnabled && i < |targets|
    requires b.enabled && b.state == Closed && b.failures < b.threshold && WithinCooldown(b.cooldown, targets)
    requires forall k :: 0 <= k < i ==> FailsOver(config, path, targets[k])
    requires forall k :: 0 <= k < |targets| ==> targets[k].problem == ""
    ensures var replies := Tried(config, path, b, targets).1;
      |replies| > i && (Refused(replies[i]) <==> b.failures + i >= b.threshold) &&
      (!Refused(replies[i]) ==> replies[i] == OwnReply(path, targets[i]))
    decreases i
  {
    hide Admit, Sent, Acceptable, Tried, OwnReply, Decided;
    TriedStep(config, path, b, targets);
    FailedOnce(path, b, targets[0]);
    NeverRefuses(path, targets[0]);
    if i > 0 {
      assert FailsOver(config, path, targets[0]);
      var b1 := Sent(path, b, targets[0]).0;
      var rest := targets[1..];
      var later := Tried(config, path, b1, rest).1;
      assert |later| >= i ==> ([OwnReply(path, targets[0])] + later)[i] == later[i - 1];
      if b1.state == Closed {
        ReachedIff(config, path, b1, rest, i - 1);
      } else {
        AllRefused(config, path, b1, rest, i - 1);
      }
    }
  }

  lemma NeverRefuses(path: Path, t: Target)
    requires path.Valid()
    ensures !Refused(OwnReply(path, t))
  {
  }

  // ---- What the two paths count as a failure ----

  /** The breaker after asking the targets one by one, whatever they reply. */
  function After(path: Path, b: Breaker, targets: seq<Target>): Breaker
    requires path.Valid()
    decreases |targets|
  {
    if targets == [] then b else Sent(path, After(path, b, targets[..|targets| - 1]), targets[|targets| - 1]).0
  }

  /** The two paths judge an outcome differently exactly for server errors that the executor does not retry. */
  lemma ReportsDifferIff(o: Outcome, n: nat)
    ensures ReportFor(Batch(n), o) != ReportFor(Streaming, o) <==>
      o.Response? && o.status >= 500 && !RetryableStatus(o.status)
  {
  }

  /** A backend that answers every request with such an error, say 500. */
  predicate AlwaysBroken(targets: seq<Target>) {
    forall k :: 0 <= k < |targets| ==> Broken(targets[k])
  }

  predicate Broken(t: Target) {
    var o := t.outcomes(1);
    o.Response? && o.status >= 500 && !RetryableStatus(o.status)
  }

  lemma BrokenOnce(n: nat, b: Breaker, t: Target)
    requires n >= 1 && Broken(t) && b.enabled && b.state == Closed
    ensures var b1 := Sent(Batch(n), b, t).0; b1 == b.(failures := 0, probeActive := false)
    ensures ReportFor(Streaming, Decided(Streaming, t)).Failed?
  {
  }

  /** Plain calls to it never open the circuit and wipe out the failures counted before, whereas streaming calls open it
      after as many as the threshold leaves. */
  lemma {:induction false} PlainServerErrors(n: nat, b: Breaker, targets: seq<Target>)
    requires n >= 1 && AlwaysBroken(targets) && WithinCooldown(b.cooldown, targets)
    requires b.enabled && b.state == Closed && b.failures < b.threshold
    ensures var plain := After(Batch(n), b, targets);
      plain.enabled && plain.state == Closed && (targets != [] ==> plain.failures == 0)
    ensures var streamed := After(Streaming, b, targets);
      streamed.enabled && streamed.threshold == b.threshold && streamed.cooldown == b.cooldown &&
      (streamed.state == Closed <==> b.failures + |targets| < b.threshold) &&
      if streamed.state == Closed then streamed.failures == b.failures + |targets|
      else streamed.state == Open && exists j :: 0 <= j < |targets| && streamed.openedAt == targets[j].end
    decreases |targets|
  {
    hide Sent, Decided, ReportFor, Broken;
    if targets != [] {
      var m := |targets| - 1;
      PlainServerErrors(n, b, targets[..m]);
      BrokenOnce(n, After(Batch(n), b, targets[..m]), targets[m]);
      var streamed := After(Streaming, b, targets[..m]);
      if streamed.state == Closed {
        BrokenOnce(n, streamed, targets[m]);
        FailedOnce(Streaming, streamed, targets[m]);
      } else {
        var j :| 0 <= j < m && streamed.openedAt == targets[..m][j].end;
        RefusedOnce(Streaming, streamed, targets[m]);
      }
    }
  }

  // ---- A request is what the breaker's runs take it to be ----

  /** A request on either path: refused with nothing reported, or admitted and reporting once. So any number of them,
      interleaved, is a run of the breaker's events. */
  lemma RequestIsARun(path: Path, s: B.System, t: Target, id: nat)
    requires path.Valid() && s.breaker.enabled && t.begin <= t.end && id !in s.inFlight
    ensures var begin := B.Begin(id, t.begin);
      var report := if ReportFor(path, Decided(path, t)).Success? then B.Ok(id, t.end) else B.Bad(id, t.end);
      var events := if Refused(Sent(path, s.breaker, t).1) then [begin] else [begin, report];
      B.AllPossible(s, t.begin, events) && B.Run(s, events).breaker == Sent(path, s.breaker, t).0 &&
      B.Run(s, events).inFlight == s.inFlight
  {
    hide Decided, ReportFor, Admit, Reported;
    SentCases(path, s.breaker, t);
    var begin := B.Begin(id, t.begin);
    var s1 := B.Step(s, begin);
    if Admit(s.breaker, t.begin).1 {
      var report := if ReportFor(path, Decided(path, t)).Success? then B.Ok(id, t.end) else B.Bad(id, t.end);
      var s2 := B.Step(s1, report);
      assert [begin, report][1..] == [report] && [report][1..] == [];
      assert B.Run(s, [begin, report]) == B.Run(s1, [report]) == B.Run(s2, []) == s2;
      assert B.AllPossible(s2, t.end, []) && B.AllPossible(s1, t.begin, [report]);
      assert s.inFlight + {id} - {id} == s.inFlight;
      SentBreaker(path, s.breaker, t);
    } else {
      assert [begin][1..] == [];
      assert B.Run(s, [begin]) == B.Run(s1, []) == s1;
    }
  }

  lemma SentBreaker(path: Path, b: Breaker, t: Target)
    requires path.Valid()
    ensures var (b1, admitted) := Admit(b, t.begin);
      Sent(path, b, t).0 == if !admitted then b1
                            else if ReportFor(path, Decided(path, t)).Success? then Succeeded(b1)
                            else CircuitBreakers.Failed(b1, t.end)
  {
    hide Admit, Decided, ReportFor;
  }

  // ---- Several requests at once ----

  datatype Request = Request(path: Path, target: Target)

  /** A request asks the breaker, or comes back with its outcome. */
  datatype Move = Ask(i: nat) | Answer(i: nat)

  function At(requests: seq<Request>, m: Move): int
    requires m.i < |requests|
  {
    if m.Ask? then requests[m.i].target.begin else requests[m.i].target.end
  }

  /** Each request asks once and answers once, later; the clock does not run back. Otherwise any order will do. */
  predicate Scheduled(requests: seq<Request>, clock: int, open: set<nat>, done: set<nat>, moves: seq<Move>)
    decreases moves
  {
    moves == [] ||
    var m := moves[0];
    m.i < |requests| && requests[m.i].path.Valid() && clock <= At(requests, m) &&
    if m.Ask? then m.i !in open + done && Scheduled(requests, At(requests, m), open + {m.i}, done, moves[1..])
    else m.i in open && Scheduled(requests, At(requests, m), open - {m.i}, done + {m.i}, moves[1..])
  }

  function ReportOn(r: Request): Report
    requires r.path.Valid()
  {
    ReportFor(r.path, Decided(r.path, r.target))
  }

  /** What the shared breaker goes through: a request that was admitted reports when it answers, a refused one does
      not. */
  function Served(requests: seq<Request>, clock: int, b: Breaker, admitted: set<nat>, open: set<nat>, done: set<nat>,
                  moves: seq<Move>): Breaker
    requires Scheduled(requests, clock, open, done, moves)
    decreases moves
  {
    if moves == [] then b
    else
      var (m, now) := (moves[0], At(requests, moves[0]));
      if m.Ask? then
        var (b1, ok) := Admit(b, now);
        Served(requests, now, b1, if ok then admitted + {m.i} else admitted, open + {m.i}, done, moves[1..])
      else
        Served(requests, now, if m.i in admitted then Reported(b, ReportOn(requests[m.i]), now) else b,
               admitted - {m.i}, open - {m.i}, done + {m.i}, moves[1..])
  }

  function EventOf(r: Request, i: nat): B.Event
    requires r.path.Valid()
  {
    if ReportOn(r).Success? then B.Ok(i, r.target.end) else B.Bad(i, r.target.end)
  }

  /** The same as events of the breaker's runs. */
  function Events(requests: seq<Request>, clock: int, s: B.System, open: set<nat>, done: set<nat>,
                  moves: seq<Move>): seq<B.Event>
    requires Scheduled(requests, clock, open, done, moves)
    decreases moves
  {
    if moves == [] then []
    else
      var (m, now) := (moves[0], At(requests, moves[0]));
      if m.Ask? then
        [B.Begin(m.i, now)] + Events(requests, now, B.Step(s, B.Begin(m.i, now)), open + {m.i}, done, moves[1..])
      else if m.i in s.inFlight then
        var e := EventOf(requests[m.i], m.i);
        [e] + Events(requests, now, B.Step(s, e), open - {m.i}, done + {m.i}, moves[1..])
      else Events(requests, now, s, open - {m.i}, done + {m.i}, moves[1..])
  }

  lemma FirstPossible(s: B.System, clock: int, e: B.Event, later: seq<B.Event>)
    requires B.Possible(s, clock, e) && B.AllPossible(B.Step(s, e), e.at, later)
    ensures B.AllPossible(s, clock, [e] + later) && B.Run(s, [e] + later) == B.Run(B.Step(s, e), later)
  {
    hide B.Possible, B.Step;
    assert ([e] + later)[1..] == later;
  }

  lemma {:induction false} EarlierPossible(s: B.System, clock: int, now: int, events: seq<B.Event>)
    requires clock <= now && B.AllPossible(s, now, events)
    ensures B.AllPossible(s, clock, events)
  {
    hide B.Step;
  }

  lemma AskStep(s: B.System, i: nat, now: int)
    ensures var (b, ok) := Admit(s.breaker, now);
      var next := B.Step(s, B.Begin(i, now));
      next.breaker == b && next.inFlight == if ok then s.inFlight + {i} else s.inFlight
  {
    hide Admit;
  }

  lemma AnswerStep(s: B.System, r: Request, i: nat)
    requires r.path.Valid()
    ensures var next := B.Step(s, EventOf(r, i));
      next.breaker == Reported(s.breaker, ReportOn(r), r.target.end) && next.inFlight == s.inFlight - {i}
  {
    hide ReportOn;
  }

  /** Main result: requests on either path, interleaved in any way, take the shared breaker through a possible run of
      its events, so the results on runs hold of them. */
  lemma {:induction false} InterleavedIsARun(requests: seq<Request>, clock: int, s: B.System, open: set<nat>,
                                             done: set<nat>,
                                             moves: seq<Move>)
    requires Scheduled(requests, clock, open, done, moves) && s.inFlight <= open
    ensures var events := Events(requests, clock, s, open, done, moves);
      B.AllPossible(s, clock, events) &&
      B.Run(s, events).breaker == Served(requests, clock, s.breaker, s.inFlight, open, done, moves)
    decreases moves
  {
    hide Admit, Reported, ReportOn, B.Step, B.Run, B.AllPossible;
    if moves == [] {
      NoEvents(s, clock);
    } else {
      var (m, now) := (moves[0], At(requests, moves[0]));
      if m.Ask? {
        var e := B.Begin(m.i, now);
        AskStep(s, m.i, now);
        InterleavedIsARun(requests, now, B.Step(s, e), open + {m.i}, done, moves[1..]);
        FirstPossible(s, clock, e, Events(requests, now, B.Step(s, e), open + {m.i}, done, moves[1..]));
      } else if m.i in s.inFlight {
        var e := EventOf(requests[m.i], m.i);
        AnswerStep(s, requests[m.i], m.i);
        InterleavedIsARun(requests, now, B.Step(s, e), open - {m.i}, done + {m.i}, moves[1..]);
        FirstPossible(s, clock, e, Events(requests, now, B.Step(s, e), open - {m.i}, done + {m.i}, moves[1..]));
      } else {
        InterleavedIsARun(requests, now, s, open - {m.i}, done + {m.i}, moves[1..]);
        EarlierPossible(s, clock, now, Events(requests, now, s, open - {m.i}, done + {m.i}, moves[1..]));
        assert s.inFlight - {m.i} == s.inFlight;
      }
    }
  }

  lemma NoEvents(s: B.System, clock: int)
    ensures B.AllPossible(s, clock, []) && B.Run(s, []) == s
  {
  }
}
