/** Trying one backend after the other, plain and streaming (handler/backend.go, handler/reliability.go). */
module Failovers {
  import opened CircuitBreakers
  import opened Executors
  import Strings

  /** One backend: why its request cannot be built, if so; else what the calls to it would come back with, when it is
      asked and when the outcome is reported. */
  datatype Target = Target(problem: string, outcomes: nat -> Outcome, begin: int, end: int)

  datatype Config = Config(failoverEnabled: bool, statusCodes: seq<int>, patterns: seq<string>)

  /** The two ways to a backend: through the executor, with so many attempts, or one streaming call. */
  datatype Path = Batch(attempts: nat) | Streaming {
    predicate Valid() {
      Batch? ==> attempts >= 1
    }
  }

  /** The outcome that the reply to the caller and the report to the breaker come from. */
  function Decided(path: Path, t: Target): Outcome
    requires path.Valid()
  {
    match path
    case Batch(n) => t.outcomes(Decisive(t.outcomes, 1, n))
    case Streaming => t.outcomes(1)
  }

  predicate ServerTrouble(status: int) {
    status >= 500 || status == 429
  }

  function ReportFor(path: Path, o: Outcome): Report {
    match path
    case Batch(_) => ReportOf(o)
    case Streaming => if o.Failure? || ServerTrouble(o.status) then Failed else Success
  }

  /** One target is asked: the breaker afterwards, and the reply. */
  function Sent(path: Path, b: Breaker, t: Target): (Breaker, Reply)
    requires path.Valid()
  {
    var (b1, admitted) := Admit(b, t.begin);
    if !admitted then (b1, Error(CircuitOpen))
    else (Reported(b1, ReportFor(path, Decided(path, t)), t.end), ReplyOf(Decided(path, t)))
  }

  /** Some configured pattern stands in what the body yields first. */
  predicate Matched(patterns: seq<string>, text: string) {
    exists i :: 0 <= i < |patterns| && patterns[i] != "" && Strings.Index(text, patterns[i]) >= 0
  }

  /** A reply that is passed on to the caller even though other targets are left. */
  predicate Acceptable(config: Config, path: Path, r: Reply) {
    r.Reply? && r.status !in config.statusCodes &&
    (path.Streaming? && config.patterns != [] && 200 <= r.status < 300 ==>
       r.body.Text? && !Matched(config.patterns, r.body.text))
  }

  /** The breaker and the replies after trying the targets in order. */
  function Tried(config: Config, path: Path, b: Breaker, targets: seq<Target>): (Breaker, seq<Reply>)
    requires path.Valid() && targets != []
    decreases |targets|
  {
    var t := targets[0];
    if t.problem != "" then (b, [Error(BadRequest(t.problem))])
    else
      var (b1, reply) := Sent(path, b, t);
      if !config.failoverEnabled || |targets| == 1 || Acceptable(config, path, reply) then (b1, [reply])
      else
        var (b2, later) := Tried(config, path, b1, targets[1..]);
        (b2, [reply] + later)
  }

  class Handler {
    const breaker: CircuitBreaker?
    const executor: BackendExecutor
    const config: Config

    ghost predicate Valid() {
      executor.breaker == breaker
    }

    /** handler.New: both paths to the backends share one breaker. */
    constructor (breaker: CircuitBreaker?, retry: RetryConfig, config: Config)
      ensures Valid() && this.breaker == breaker && this.config == config && executor.config == retry
    {
      this.breaker, this.config := breaker, config;
      executor := new BackendExecutor(breaker, retry);
    }

    method DoStreamingBackendRequest(t: Target) returns (reply: Reply)
      modifies breaker
      ensures (Current(breaker), reply) == Sent(Streaming, old(Current(breaker)), t)
    {
      hide Admit, Reported, Current;
      var admitted := Allowed(breaker, t.begin);
      if !admitted {
        return Error(CircuitOpen);
      }
      var resp := t.outcomes(1);
      if resp.Failure? {
        var _ := Record(breaker, Failed, t.end, resp.message);
        return Error(Transport(resp.message));
      }
      if resp.status >= 500 || resp.status == 429 {
        var _ := Record(breaker, Failed, t.end, "status");
      } else {
        var _ := Record(breaker, Success, t.end, "");
      }
      return Reply(resp.status, resp.body);
    }

    method IsFailoverStatus(status: int) returns (found: bool)
      ensures found <==> status in config.statusCodes
    {
      var i := 0;
      while i < |config.statusCodes|
        invariant 0 <= i <= |config.statusCodes| && status !in config.statusCodes[..i]
      {
        if status == config.statusCodes[i] {
          return true;
        }
        i := i + 1;
      }
      assert config.statusCodes[..i] == config.statusCodes;
      return false;
    }

    /** Whether to fail over, and whether reading the body failed. */
    method PrepareStreamingResponse(status: int, body: Body) returns (failover: bool, failed: bool)
      ensures failed <==> config.patterns != [] && 200 <= status < 300 && body.Unreadable?
      ensures failover <==>
        config.patterns != [] && 200 <= status < 300 && body.Text? && Matched(config.patterns, body.text)
    {
      if |config.patterns| == 0 || status < 200 || status >= 300 {
        return false, false;
      }
      if body.Unreadable? {
        return false, true;
      }
      var i := 0;
      while i < |config.patterns|
        invariant 0 <= i <= |config.patterns|
        invariant forall j :: 0 <= j < i ==>
          config.patterns[j] == "" || Strings.Index(body.text, config.patterns[j]) < 0
      {
        if config.patterns[i] != "" && Strings.Index(body.text, config.patterns[i]) >= 0 {
          return true, false;
        }
        i := i + 1;
      }
      return false, false;
    }

    /** Besides the reply to the caller, every reply met on the way. */
    method DoBackendTargets(targets: seq<Target>, retryable: bool, overflow: int)
      returns (reply: Reply, replies: seq<Reply>)
      requires Valid()
      modifies breaker
      ensures targets == [] ==> reply == Error(NoBackend) && replies == [] && Current(breaker) == old(Current(breaker))
      ensures targets != [] ==>
        (Current(breaker), replies) ==
          Tried(config, Batch(Attempts(executor.config, retryable)), old(Current(breaker)), targets)
        && replies != [] && reply == replies[|replies| - 1]
    {
      hide Sent, Current, Acceptable, Decisive;
      replies := [];
      if |targets| == 0 {
        return Error(NoBackend), [];
      }
      ghost var path := Batch(Attempts(executor.config, retryable));
      ghost var all := Tried(config, path, Current(breaker), targets);
      var i := 0;
      assert targets[i..] == targets && replies + all.1 == all.1;
      while i < |targets|
        invariant 0 <= i < |targets|
        invariant var rest := Tried(config, path, Current(breaker), targets[i..]); all == (rest.0, replies + rest.1)
      {
        var target := targets[i];
        TriedStep(config, path, Current(breaker), targets[i..]);
        assert targets[i..][1..] == targets[i + 1..];
        if target.problem != "" {
          reply := Error(BadRequest(target.problem));
          return reply, replies + [reply];
        }
        reply := Ask(target, retryable, overflow);
        if reply.Error? {
          if !config.failoverEnabled || i == |targets| - 1 {
            Unacceptable(config, path, reply);
            return reply, replies + [reply];
          }
          Unacceptable(config, path, reply);
        } else {
          var failoverStatus := IsFailoverStatus(reply.status);
          BatchAcceptable(config, path, reply);
          if !config.failoverEnabled || i == |targets| - 1 || !failoverStatus {
            return reply, replies + [reply];
          }
        }
        ghost var later := Tried(config, path, Current(breaker), targets[i + 1..]).1;
        assert replies + ([reply] + later) == replies + [reply] + later;
        replies := replies + [reply];
        i := i + 1;
      }
      assert false;
    }

    /** doBackendRequest */
    method Ask(t: Target, retryable: bool, overflow: int) returns (reply: Reply)
      requires Valid()
      modifies breaker
      ensures (Current(breaker), reply) == Sent(Batch(Attempts(executor.config, retryable)), old(Current(breaker)), t)
    {
      hide Admit, Reported, Current, Decisive, Attempts;
      var attempts, sleeps, reports;
      reply, attempts, sleeps, reports := executor.Do(t.outcomes, retryable, t.begin, t.end, overflow);
    }

    /** The checks on a streaming reply while other targets are left. */
    method PassOn(reply: Reply) returns (ok: bool)
      ensures ok <==> Acceptable(config, Streaming, reply)
    {
      hide Matched, Acceptable;
      StreamingAcceptable(config, reply);
      if reply.Error? {
        return false;
      }
      var failoverStatus := IsFailoverStatus(reply.status);
      if failoverStatus {
        return false;
      }
      var shouldFailover, failed := PrepareStreamingResponse(reply.status, reply.body);
      return !failed && !shouldFailover;
    }

    method DoStreamingBackendTargets(targets: seq<Target>) returns (reply: Reply, replies: seq<Reply>)
      modifies breaker
      ensures targets == [] ==> reply == Error(NoBackend) && replies == [] && Current(breaker) == old(Current(breaker))
      ensures targets != [] ==>
        (Current(breaker), replies) == Tried(config, Streaming, old(Current(breaker)), targets) &&
        replies != [] && reply == replies[|replies| - 1]
    {
      hide Sent, Current, Matched, Acceptable;
      replies := [];
      if |targets| == 0 {
        return Error(NoBackend), [];
      }
      ghost var all := Tried(config, Streaming, Current(breaker), targets);
      var i := 0;
      assert targets[i..] == targets && replies + all.1 == all.1;
      while i < |targets|
        invariant 0 <= i < |targets|
        invariant
          var rest := Tried(config, Streaming, Current(breaker), targets[i..]);
          all == (rest.0, replies + rest.1)
      {
        var target := targets[i];
        TriedStep(config, Streaming, Current(breaker), targets[i..]);
        assert targets[i..][1..] == targets[i + 1..];
        if target.problem != "" {
          reply := Error(BadRequest(target.problem));
          return reply, replies + [reply];
        }
        reply := DoStreamingBackendRequest(target);
        if !config.failoverEnabled || i == |targets| - 1 {
          return reply, replies + [reply];
        }
        var passOn := PassOn(reply);
        if passOn {
          return reply, replies + [reply];
        }
        ghost var later := Tried(config, Streaming, Current(breaker), targets[i + 1..]).1;
        assert replies + ([reply] + later) == replies + [reply] + later;
        replies := replies + [reply];
        i := i + 1;
      }
      assert false;
    }
  }

  lemma TriedStep(config: Config, path: Path, b: Breaker, targets: seq<Target>)
    requires path.Valid() && targets != []
    ensures Tried(config, path, b, targets) ==
      if targets[0].problem != "" then (b, [Error(BadRequest(targets[0].problem))])
      else
        var (b1, reply) := Sent(path, b, targets[0]);
        if !config.failoverEnabled || |targets| == 1 || Acceptable(config, path, reply) then (b1, [reply])
        else (Tried(config, path, b1, targets[1..]).0, [reply] + Tried(config, path, b1, targets[1..]).1)
  {
    hide Sent, Acceptable;
  }

  lemma Unacceptable(config: Config, path: Path, r: Reply)
    requires r.Error?
    ensures !Acceptable(config, path, r)
  {
  }

  lemma StreamingAcceptable(config: Config, r: Reply)
    ensures Acceptable(config, Streaming, r) <==>
      r.Reply? && r.status !in config.statusCodes &&
      !(config.patterns != [] && 200 <= r.status < 300 && (r.body.Unreadable? || Matched(config.patterns, r.body.text)))
  {
    hide Matched;
  }

  lemma BatchAcceptable(config: Config, path: Path, r: Reply)
    requires path.Batch? && r.Reply?
    ensures Acceptable(config, path, r) <==> r.status !in config.statusCodes
  {
  }
}
