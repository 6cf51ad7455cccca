/** The token buckets of the rate limiter (reliability/ratelimit.go); times are in seconds. */
module RateLimiters {

  datatype Bucket = Bucket(tokens: real, updated: real, lastSeen: real)

  type Buckets = map<string, Bucket>

  /** Requests per minute and burst, after the defaults of NewRateLimiter. */
  datatype Config = Config(perMinute: int, burst: int) {
    predicate Valid() {
      perMinute > 0 && burst > 0
    }

    function Rate(): real {
      perMinute as real / 60.0
    }

    function Max(): real {
      burst as real
    }

    /** Tokens earned in `elapsed` seconds. */
    function Earned(elapsed: real): real {
      elapsed * Rate()
    }
  }

  function MakeConfig(requestsPerMinute: int, burst: int): (c: Config)
    ensures c.Valid()
  {
    var perMinute := if requestsPerMinute <= 0 then 60 else requestsPerMinute;
    Config(perMinute, if burst <= 0 then perMinute else burst)
  }

  function Refill(c: Config, b: Bucket, now: real): real {
    var tokens := b.tokens + c.Earned(now - b.updated);
    if tokens > c.Max() then c.Max() else tokens
  }

  /** One request of one client: the bucket afterwards, and the decision. */
  function Take(c: Config, m: Buckets, key: string, now: real): (Bucket, bool) {
    if key !in m then (Bucket(c.Max() - 1.0, now, now), true)
    else
      var tokens := Refill(c, m[key], now);
      if tokens < 1.0 then (Bucket(tokens, now, now), false) else (Bucket(tokens - 1.0, now, now), true)
  }

  const IDLE := 300.0

  /** Cleanup: clients not seen for five minutes are forgotten. */
  function Forget(m: Buckets, now: real): Buckets {
    map key | key in m && !(now - m[key].lastSeen > IDLE) :: m[key]
  }

  class RateLimiter {
    const enabled: bool
    const config: Config
    var buckets: Buckets

    constructor (enabled: bool, requestsPerMinute: int, burst: int)
      ensures this.enabled == enabled && config == MakeConfig(requestsPerMinute, burst) && buckets == map[]
    {
      this.enabled := enabled;
      config := MakeConfig(requestsPerMinute, burst);
      buckets := map[];
    }

    method Allow(key: string, now: real) returns (ok: bool)
      modifies this
      ensures ok == (enabled ==> Take(config, old(buckets), key, now).1)
      ensures buckets == if enabled then old(buckets)[key := Take(config, old(buckets), key, now).0] else old(buckets)
    {
      if !enabled {
        return true;
      }
      if key !in buckets {
        buckets := buckets[key := Bucket(config.Max() - 1.0, now, now)];
        return true;
      }
      var b := buckets[key];
      var elapsed := now - b.updated;
      var tokens := b.tokens + config.Earned(elapsed);
      if tokens > config.Max() {
        tokens := config.Max();
      }
      assert tokens == Refill(config, b, now);
      if tokens < 1.0 {
        buckets := buckets[key := Bucket(tokens, now, now)];
        return false;
      }
      buckets := buckets[key := Bucket(tokens - 1.0, now, now)];
      return true;
    }

    method Cleanup(now: real)
      modifies this
      ensures buckets == Forget(old(buckets), now)
    {
      var rest := buckets.Keys;
      while rest != {}
        invariant rest <= buckets.Keys
        invariant buckets == map key | key in old(buckets) &&
          (key in rest || !(now - old(buckets)[key].lastSeen > IDLE)) :: old(buckets)[key]
        decreases rest
      {
        var key :| key in rest;
        rest := rest - {key};
        if now - buckets[key].lastSeen > IDLE {
          buckets := buckets - {key};
        }
      }
    }
  }
}
