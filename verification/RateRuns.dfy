/** Histories of the rate limiter: requests of many clients, and clean-ups at arbitrary moments. */
module RateRuns {
  import opened RateLimiters

  datatype Event = Request(key: string, at: real) | Cleanup(at: real)

  function Next(c: Config, m: Buckets, e: Event): Buckets {
    match e
    case Request(key, at) => m[key := Take(c, m, key, at).0]
    case Cleanup(at) => Forget(m, at)
  }

  /** The same history with the clean-ups left out. */
  function NextUncleaned(c: Config, m: Buckets, e: Event): Buckets {
    if e.Request? then Next(c, m, e) else m
  }

  /** For every request, the decision and the bucket it leaves. */
  function Outcomes(c: Config, m: Buckets, events: seq<Event>): seq<(Bucket, bool)>
    decreases events
  {
    if events == [] then []
    else (if events[0].Request? then [Take(c, m, events[0].key, events[0].at)] else [])
         + Outcomes(c, Next(c, m, events[0]), events[1..])
  }

  function OutcomesUncleaned(c: Config, m: Buckets, events: seq<Event>): seq<(Bucket, bool)>
    decreases events
  {
    if events == [] then []
    else (if events[0].Request? then [Take(c, m, events[0].key, events[0].at)] else [])
         + OutcomesUncleaned(c, NextUncleaned(c, m, events[0]), events[1..])
  }

  predicate Ordered(clock: real, events: seq<Event>)
    decreases events
  {
    events == [] || (clock <= events[0].at && Ordered(events[0].at, events[1..]))
  }

  /** No bucket is overdrawn or from the future, and none holds more than the burst. */
  predicate Sound(c: Config, m: Buckets, clock: real) {
    c.Valid() && forall k :: k in m ==>
      0.0 <= m[k].tokens <= c.Max() && m[k].updated <= clock && m[k].lastSeen == m[k].updated
  }

  predicate Full(c: Config, b: Bucket, now: real) {
    b.tokens + c.Earned(now - b.updated) >= c.Max()
  }

  lemma EarnedGrows(c: Config, a: real, b: real)
    requires c.Valid() && a <= b
    ensures c.Earned(a) <= c.Earned(b)
  {
  }

  lemma EarnedSum(c: Config, a: real, b: real)
    ensures c.Earned(a + b) == c.Earned(a) + c.Earned(b) && c.Earned(0.0) == 0.0
    ensures c.Earned(IDLE) == 5.0 * c.perMinute as real
  {
  }

  lemma RefillBounds(c: Config, b: Bucket, now: real)
    requires c.Valid() && 0.0 <= b.tokens <= c.Max() && b.updated <= now
    ensures 0.0 <= Refill(c, b, now) <= c.Max() && b.tokens <= Refill(c, b, now)
  {
    hide Config.Earned;
    EarnedGrows(c, 0.0, now - b.updated);
    EarnedSum(c, 0.0, 0.0);
  }

  lemma NextSound(c: Config, m: Buckets, clock: real, e: Event)
    requires Sound(c, m, clock) && clock <= e.at
    ensures Sound(c, Next(c, m, e), e.at) && Sound(c, NextUncleaned(c, m, e), e.at)
  {
    hide Refill;
    if e.Request? && e.key in m {
      RefillBounds(c, m[e.key], e.at);
    }
  }

  /** The cleaned map lacks only buckets that are full anyway. */
  predicate Alike(c: Config, m: Buckets, u: Buckets, clock: real) {
    m.Keys <= u.Keys && (forall k :: k in m ==> m[k] == u[k]) &&
    (forall k :: k in u && k !in m ==> Full(c, u[k], clock))
  }

  lemma FullLater(c: Config, b: Bucket, now: real, later: real)
    requires c.Valid() && Full(c, b, now) && now <= later
    ensures Full(c, b, later)
  {
    EarnedGrows(c, now - b.updated, later - b.updated);
  }

  /** A full bucket and a forgotten one answer alike. */
  lemma FullIsNew(c: Config, u: Buckets, key: string, now: real)
    requires c.Valid() && key in u && Full(c, u[key], now)
    ensures Take(c, u, key, now) == Take(c, map[], key, now)
  {
  }

  /** Five idle minutes fill a bucket when the burst is at most five minutes' worth of requests. */
  lemma IdleIsFull(c: Config, b: Bucket, now: real)
    requires c.Valid() && c.burst <= 5 * c.perMinute && b.tokens >= 0.0 && now - b.updated > IDLE
    ensures Full(c, b, now)
  {
    hide Config.Earned;
    EarnedGrows(c, IDLE, now - b.updated);
    EarnedSum(c, IDLE, IDLE);
  }

  lemma NextAlike(c: Config, m: Buckets, u: Buckets, clock: real, e: Event)
    requires Sound(c, u, clock) && Alike(c, m, u, clock) && clock <= e.at && c.burst <= 5 * c.perMinute
    ensures Alike(c, Next(c, m, e), NextUncleaned(c, u, e), e.at)
    ensures e.Request? ==> Take(c, m, e.key, e.at) == Take(c, u, e.key, e.at)
  {
    hide Full, Take;
    forall k | k in u && k !in m ensures Full(c, u[k], e.at) {
      FullLater(c, u[k], clock, e.at);
    }
    if e.Request? {
      TakeAlike(c, m, u, e.key, e.at);
    } else {
      forall k | k in u && k !in Forget(m, e.at) ensures Full(c, u[k], e.at) {
        if k in m { IdleIsFull(c, u[k], e.at); }
      }
    }
  }

  lemma TakeAlike(c: Config, m: Buckets, u: Buckets, key: string, now: real)
    requires c.Valid() && Alike(c, m, u, now)
    ensures Take(c, m, key, now) == Take(c, u, key, now)
  {
    hide Full;
    if key in u && key !in m { FullIsNew(c, u, key, now); }
  }

  lemma {:induction false} OutcomesAlike(c: Config, m: Buckets, u: Buckets, clock: real, events: seq<Event>)
    requires Sound(c, u, clock) && Alike(c, m, u, clock) && Ordered(clock, events) && c.burst <= 5 * c.perMinute
    ensures Outcomes(c, m, events) == OutcomesUncleaned(c, u, events)
    decreases events
  {
    hide Sound, Alike, Next, NextUncleaned, Take;
    if events != [] {
      NextAlike(c, m, u, clock, events[0]);
      NextSound(c, u, clock, events[0]);
      OutcomesAlike(c, Next(c, m, events[0]), NextUncleaned(c, u, events[0]), events[0].at, events[1..]);
    }
  }

  /** Main result, one half: with a burst of at most five minutes' worth of requests, clean-ups at any moments
      change no decision and no bucket that a request leaves. */
  lemma CleanupInvisible(c: Config, start: real, events: seq<Event>)
    requires c.Valid() && c.burst <= 5 * c.perMinute && Ordered(start, events)
    ensures Outcomes(c, map[], events) == OutcomesUncleaned(c, map[], events)
  {
    OutcomesAlike(c, map[], map[], start, events);
  }

  // ---- How many requests get through ----

  function Admitted(c: Config, m: Buckets, events: seq<Event>, key: string): nat
    decreases events
  {
    if events == [] then 0
    else
      (if events[0].Request? && events[0].key == key && Take(c, m, key, events[0].at).1 then 1 else 0)
      + Admitted(c, Next(c, m, events[0]), events[1..], key)
  }

  function End(c: Config, m: Buckets, events: seq<Event>): Buckets
    decreases events
  {
    if events == [] then m else End(c, Next(c, m, events[0]), events[1..])
  }

  function EndTime(clock: real, events: seq<Event>): real
    decreases events
  {
    if events == [] then clock else EndTime(events[0].at, events[1..])
  }

  /** Tokens at hand at time `now`. */
  function Level(c: Config, m: Buckets, key: string, now: real): real {
    if key in m then Refill(c, m[key], now) else c.Max()
  }

  lemma LevelLater(c: Config, m: Buckets, key: string, clock: real, t: real)
    requires Sound(c, m, clock) && clock <= t
    ensures Level(c, m, key, t) <= Level(c, m, key, clock) + c.Earned(t - clock)
    ensures 0.0 <= Level(c, m, key, clock) <= c.Max()
  {
    hide Config.Earned;
    EarnedGrows(c, 0.0, t - clock);
    EarnedSum(c, 0.0, 0.0);
    if key in m {
      RefillBounds(c, m[key], clock);
      EarnedSum(c, clock - m[key].updated, t - clock);
      assert clock - m[key].updated + (t - clock) == t - m[key].updated;
    }
  }

  /** A request takes one token when it is admitted and none when it is not. */
  lemma TakeLevel(c: Config, m: Buckets, key: string, t: real)
    requires Sound(c, m, t)
    ensures var (b, ok) := Take(c, m, key, t);
      (ok <==> Level(c, m, key, t) >= 1.0) &&
      Level(c, m[key := b], key, t) == Level(c, m, key, t) - (if ok then 1.0 else 0.0)
  {
    hide Config.Earned;
    EarnedSum(c, 0.0, 0.0);
    if key in m { RefillBounds(c, m[key], t); }
    assert t - t == 0.0;
  }

  lemma NextLevel(c: Config, m: Buckets, key: string, clock: real, e: Event)
    requires Sound(c, m, clock) && clock <= e.at && c.burst <= 5 * c.perMinute
    ensures Level(c, Next(c, m, e), key, e.at) == Level(c, m, key, e.at) -
      (if e.Request? && e.key == key && Take(c, m, key, e.at).1 then 1.0 else 0.0)
  {
    hide Config.Earned, Take;
    SoundLater(c, m, clock, e.at);
    if e.Request? {
      TakeLevel(c, m, e.key, e.at);
    } else if key in m && e.at - m[key].lastSeen > IDLE {
      IdleIsFull(c, m[key], e.at);
    }
  }

  lemma SoundLater(c: Config, m: Buckets, clock: real, t: real)
    requires Sound(c, m, clock) && clock <= t
    ensures Sound(c, m, t)
  {
  }

  lemma {:induction false} AdmittedBound(c: Config, m: Buckets, clock: real, events: seq<Event>, key: string)
    requires Sound(c, m, clock) && Ordered(clock, events) && c.burst <= 5 * c.perMinute
    ensures Admitted(c, m, events, key) as real <= Level(c, m, key, clock) + c.Earned(EndTime(clock, events) - clock)
    decreases events
  {
    hide Sound, Next, Take, Level, Config.Earned;
    EarnedSum(c, 0.0, 0.0);
    LevelLater(c, m, key, clock, clock);
    if events == [] {
      assert clock - clock == 0.0;
    } else {
      var (e, end) := (events[0], EndTime(clock, events));
      NextSound(c, m, clock, e);
      NextLevel(c, m, key, clock, e);
      LevelLater(c, m, key, clock, e.at);
      AdmittedBound(c, Next(c, m, e), e.at, events[1..], key);
      EarnedSum(c, e.at - clock, end - e.at);
      assert e.at - clock + (end - e.at) == end - clock;
    }
  }

  /** Main result: in any window, from any reachable state, a client gets at most burst + rate * T requests through,
      clean-ups or not, if the burst is at most five minutes' worth of requests. */
  lemma RateBound(c: Config, start: real, before: seq<Event>, window: seq<Event>, key: string)
    requires c.Valid() && c.burst <= 5 * c.perMinute
    requires Ordered(start, before) && Ordered(EndTime(start, before), window)
    ensures var from := EndTime(start, before);
      Admitted(c, End(c, map[], before), window, key) as real <= c.Max() + c.Earned(EndTime(from, window) - from)
  {
    hide Config.Earned, Level, Sound;
    EndSound(c, map[], start, before) by { EmptySound(c, start); }
    var from := EndTime(start, before);
    AdmittedBound(c, End(c, map[], before), from, window, key);
    LevelLater(c, End(c, map[], before), key, from, from);
  }

  lemma EmptySound(c: Config, clock: real)
    requires c.Valid()
    ensures Sound(c, map[], clock)
  {
  }

  lemma {:induction false} EndSound(c: Config, m: Buckets, clock: real, events: seq<Event>)
    requires Sound(c, m, clock) && Ordered(clock, events)
    ensures Sound(c, End(c, m, events), EndTime(clock, events))
    decreases events
  {
    hide Sound, Next;
    if events != [] {
      NextSound(c, m, clock, events[0]);
      EndSound(c, Next(c, m, events[0]), events[0].at, events[1..]);
    }
  }

  /** Main result: whoever keeps 60 / perMinute seconds between requests is never refused, whatever others do. */
  lemma SpacedNeverRefused(c: Config, start: real, before: seq<Event>, key: string, now: real)
    requires c.Valid() && Ordered(start, before) && EndTime(start, before) <= now
    requires forall i :: 0 <= i < |before| && before[i].Request? && before[i].key == key ==>
      now - before[i].at >= 60.0 / c.perMinute as real
    ensures Take(c, End(c, map[], before), key, now).1
  {
    hide Take, Sound;
    EmptySound(c, start);
    EndSound(c, map[], start, before);
    LastUpdate(c, map[], before, key);
    var m := End(c, map[], before);
    SoundLater(c, m, EndTime(start, before), now);
    TakeLevel(c, m, key, now);
    if key in m {
      EarnedToken(c, m, key, EndTime(start, before), now);
    }
  }

  lemma EarnedToken(c: Config, m: Buckets, key: string, clock: real, now: real)
    requires Sound(c, m, clock) && clock <= now && key in m && now - m[key].updated >= 60.0 / c.perMinute as real
    ensures Level(c, m, key, now) >= 1.0
  {
    hide Config.Earned;
    EarnedGrows(c, 60.0 / c.perMinute as real, now - m[key].updated);
    OneToken(c);
  }

  lemma OneToken(c: Config)
    requires c.Valid()
    ensures c.Earned(60.0 / c.perMinute as real) == 1.0
  {
    var p := c.perMinute as real;
    assert (60.0 / p) * (p / 60.0) == 1.0;
  }

  /** A bucket was last updated by a request of its own client. */
  lemma {:induction false} LastUpdate(c: Config, m: Buckets, events: seq<Event>, key: string)
    ensures var n := End(c, m, events);
      key in n && !(key in m && n[key] == m[key]) ==>
        exists i :: 0 <= i < |events| && events[i] == Request(key, n[key].updated)
    decreases events
  {
    hide Take;
    if events != [] {
      var e := events[0];
      LastUpdate(c, Next(c, m, e), events[1..], key);
      var n := End(c, m, events);
      if key in n {
        if i :| 0 <= i < |events[1..]| && events[1..][i] == Request(key, n[key].updated) {
          assert events[i + 1] == Request(key, n[key].updated);
        } else if e.Request? && e.key == key {
          TakeTime(c, m, key, e.at);
          assert events[0] == Request(key, n[key].updated);
        }
      }
    }
  }

  lemma TakeTime(c: Config, m: Buckets, key: string, now: real)
    ensures Take(c, m, key, now).0.updated == now && Take(c, m, key, now).0.lastSeen == now
  {
  }

  // ---- With a larger burst both properties fail ----

  function AdmittedUncleaned(c: Config, m: Buckets, events: seq<Event>, key: string): nat
    decreases events
  {
    if events == [] then 0
    else
      (if events[0].Request? && events[0].key == key && Take(c, m, key, events[0].at).1 then 1 else 0)
      + AdmittedUncleaned(c, NextUncleaned(c, m, events[0]), events[1..], key)
  }

  /** `n` requests of one client at one moment. */
  function Volley(key: string, at: real, n: nat): seq<Event> {
    if n == 0 then [] else [Request(key, at)] + Volley(key, at, n - 1)
  }

  function AtMost(n: nat, level: real): nat
    requires level >= 0.0
  {
    if n as real <= level then n else level.Floor
  }

  /** A volley gets as many requests through as there are whole tokens. */
  lemma {:induction false} VolleyAdmits(c: Config, m: Buckets, key: string, at: real, n: nat, rest: seq<Event>)
    returns (after: Buckets)
    requires Sound(c, m, at)
    ensures Level(c, m, key, at) >= 0.0
    ensures Sound(c, after, at) &&
      (n > 0 || (key in m && m[key].lastSeen == at) ==> key in after && after[key].lastSeen == at)
    ensures var (level, events) := (Level(c, m, key, at), Volley(key, at, n));
      Level(c, after, key, at) == level - AtMost(n, level) as real &&
      Admitted(c, m, events + rest, key) == AtMost(n, level) + Admitted(c, after, rest, key) &&
      AdmittedUncleaned(c, m, events + rest, key) == AtMost(n, level) + AdmittedUncleaned(c, after, rest, key)
    decreases n
  {
    hide Take, Level, Sound, Config.Earned;
    LevelLater(c, m, key, at, at);
    var (level, events) := (Level(c, m, key, at), Volley(key, at, n));
    if n == 0 {
      assert events + rest == rest;
      after := m;
    } else {
      var (b, ok) := Take(c, m, key, at);
      var next := m[key := b];
      NextSound(c, m, at, Request(key, at));
      TakeLevel(c, m, key, at);
      TakeTime(c, m, key, at);
      after := VolleyAdmits(c, next, key, at, n - 1, rest);
      assert (events + rest)[1..] == Volley(key, at, n - 1) + rest;
      OneMore(n, level);
    }
  }

  lemma OneMore(n: nat, level: real)
    requires n > 0 && level >= 0.0
    ensures level >= 1.0 ==> AtMost(n, level) == 1 + AtMost(n - 1, level - 1.0)
    ensures level < 1.0 ==> AtMost(n, level) == 0 == AtMost(n - 1, level)
  {
  }

  /** Drain the bucket, wait a little over five minutes, and drain it again. */
  function Overrun(c: Config, key: string): seq<Event>
    requires c.Valid()
  {
    var later := IDLE + 30.0 / c.perMinute as real;
    Volley(key, 0.0, c.burst) + ([Cleanup(later)] + Volley(key, later, c.burst))
  }

  lemma HalfToken(c: Config)
    requires c.Valid()
    ensures c.Earned(IDLE + 30.0 / c.perMinute as real) == 5.0 * c.perMinute as real + 0.5
  {
    var p := c.perMinute as real;
    assert (30.0 / p) * (p / 60.0) == 0.5;
    EarnedSum(c, IDLE, 30.0 / p);
  }

  lemma OverrunAdmits(c: Config, key: string)
    requires c.Valid() && c.burst > 5 * c.perMinute
    ensures Admitted(c, map[], Overrun(c, key), key) == 2 * c.burst
    ensures AdmittedUncleaned(c, map[], Overrun(c, key), key) == c.burst + 5 * c.perMinute
  {
    hide Take, Sound, Config.Earned, Level;
    var later := IDLE + 30.0 / c.perMinute as real;
    var tail := [Cleanup(later)] + Volley(key, later, c.burst);
    EmptySound(c, 0.0);
    NewLevel(c, key, 0.0);
    var drained := VolleyAdmits(c, map[], key, 0.0, c.burst, tail);
    HalfToken(c);
    NextSound(c, drained, 0.0, Cleanup(later));
    SoundLater(c, drained, 0.0, later);
    DrainedLevel(c, drained, key, later);
    assert tail[1..] == Volley(key, later, c.burst);
    assert tail[1..] + [] == tail[1..];
    var cleaned := Forget(drained, later);
    var a := VolleyAdmits(c, cleaned, key, later, c.burst, []);
    var b := VolleyAdmits(c, drained, key, later, c.burst, []);
  }

  lemma NewLevel(c: Config, key: string, at: real)
    ensures Level(c, map[], key, at) == c.Max()
  {
  }

  lemma DrainedLevel(c: Config, m: Buckets, key: string, later: real)
    requires Sound(c, m, 0.0) && key in m && m[key].lastSeen == 0.0 && Level(c, m, key, 0.0) == 0.0 && later > IDLE
    requires c.Earned(later) == 5.0 * c.perMinute as real + 0.5 && c.burst > 5 * c.perMinute
    ensures Level(c, m, key, later) == 5.0 * c.perMinute as real + 0.5
    ensures Level(c, Forget(m, later), key, later) == c.Max()
  {
    hide Config.Earned;
    EarnedSum(c, 0.0, 0.0);
    assert 0.0 - 0.0 == 0.0 && later - 0.0 == later;
  }

  lemma {:induction false} VolleyOrdered(key: string, at: real, n: nat, rest: seq<Event>)
    requires Ordered(at, rest)
    ensures Ordered(at, Volley(key, at, n) + rest)
    ensures EndTime(at, Volley(key, at, n) + rest) == EndTime(at, rest)
    decreases n
  {
    if n == 0 {
      assert Volley(key, at, n) + rest == rest;
    } else {
      VolleyOrdered(key, at, n - 1, rest);
      assert (Volley(key, at, n) + rest)[1..] == Volley(key, at, n - 1) + rest;
    }
  }

  lemma OverrunOrdered(c: Config, key: string)
    requires c.Valid()
    ensures Ordered(0.0, Overrun(c, key))
    ensures EndTime(0.0, Overrun(c, key)) == IDLE + 30.0 / c.perMinute as real
  {
    var later := IDLE + 30.0 / c.perMinute as real;
    VolleyOrdered(key, later, c.burst, []);
    assert Volley(key, later, c.burst) + [] == Volley(key, later, c.burst);
    var tail := [Cleanup(later)] + Volley(key, later, c.burst);
    assert tail[1..] == Volley(key, later, c.burst);
    VolleyOrdered(key, 0.0, c.burst, tail);
  }

  /** Equal outcomes mean equal counts. */
  lemma {:induction false} CountsFollow(c: Config, m: Buckets, u: Buckets, events: seq<Event>, key: string)
    requires Outcomes(c, m, events) == OutcomesUncleaned(c, u, events)
    ensures Admitted(c, m, events, key) == AdmittedUncleaned(c, u, events, key)
    decreases events
  {
    hide Take, Next, NextUncleaned;
    if events != [] {
      var e := events[0];
      var (x, y) := (Outcomes(c, Next(c, m, e), events[1..]),
        OutcomesUncleaned(c, NextUncleaned(c, u, e), events[1..]));
      if e.Request? {
        assert Outcomes(c, m, events)[0] == Take(c, m, e.key, e.at);
        assert OutcomesUncleaned(c, u, events)[0] == Take(c, u, e.key, e.at);
        assert Outcomes(c, m, events)[1..] == x;
        assert OutcomesUncleaned(c, u, events)[1..] == y;
      } else {
        assert Outcomes(c, m, events) == [] + x == x;
        assert OutcomesUncleaned(c, u, events) == [] + y == y;
      }
      CountsFollow(c, Next(c, m, e), NextUncleaned(c, u, e), events[1..], key);
    }
  }

  predicate CleanupHidden(c: Config, events: seq<Event>) {
    Outcomes(c, map[], events) == OutcomesUncleaned(c, map[], events)
  }

  lemma OverrunShows(c: Config, key: string)
    requires c.Valid() && c.burst > 5 * c.perMinute
    ensures Ordered(0.0, Overrun(c, key)) && !CleanupHidden(c, Overrun(c, key))
  {
    hide Outcomes, OutcomesUncleaned, Ordered, Admitted, AdmittedUncleaned, Overrun;
    OverrunOrdered(c, key);
    OverrunAdmits(c, key);
    if CleanupHidden(c, Overrun(c, key)) {
      CountsFollow(c, map[], map[], Overrun(c, key), key);
    }
  }

  /** Main result, exact: clean-ups are invisible in every history if and only if burst <= 5 * perMinute. */
  lemma CleanupInvisibleIff(c: Config)
    requires c.Valid()
    ensures c.burst <= 5 * c.perMinute <==> forall events :: Ordered(0.0, events) ==> CleanupHidden(c, events)
  {
    hide Ordered, CleanupHidden, Overrun;
    if c.burst <= 5 * c.perMinute {
      forall events | Ordered(0.0, events) ensures CleanupHidden(c, events) {
        HiddenIfSmall(c, events);
      }
    } else {
      OverrunShows(c, "a");
    }
  }

  lemma HiddenIfSmall(c: Config, events: seq<Event>)
    requires c.Valid() && c.burst <= 5 * c.perMinute && Ordered(0.0, events)
    ensures CleanupHidden(c, events)
  {
    CleanupInvisible(c, 0.0, events);
  }

  /** Main result, exact: the rate bound holds for every history and client if and only if burst <= 5 * perMinute. */
  lemma RateBoundIff(c: Config)
    requires c.Valid()
    ensures c.burst <= 5 * c.perMinute <==>
      forall events, key :: Ordered(0.0, events) ==>
        Admitted(c, map[], events, key) as real <= c.Max() + c.Earned(EndTime(0.0, events))
  {
    hide Ordered, Admitted, EndTime, Overrun, Config.Earned, Level, Sound;
    if c.burst <= 5 * c.perMinute {
      forall events, key | Ordered(0.0, events)
        ensures Admitted(c, map[], events, key) as real <= c.Max() + c.Earned(EndTime(0.0, events))
      {
        EmptySound(c, 0.0);
        AdmittedBound(c, map[], 0.0, events, key);
        LevelLater(c, map[], key, 0.0, 0.0);
        assert EndTime(0.0, events) - 0.0 == EndTime(0.0, events);
      }
    } else {
      OverrunOrdered(c, "a");
      OverrunAdmits(c, "a");
      HalfToken(c);
    }
  }

  // ---- In terms of the settings ----

  /** Main result: with the numbers as configured, a missing rate counting as 60 and a missing burst as the rate: a
      new client gets exactly as many of `n` requests at one moment through as the burst allows; any window lets at
      most the burst and the rate times its length through, if the burst is at most five times the rate; and one
      request per interval always passes. */
  lemma Configured(requestsPerMinute: int, burst: int, start: real, before: seq<Event>, window: seq<Event>, key: string,
                   n: nat, now: real)
    requires Ordered(start, before) && Ordered(EndTime(start, before), window)
    ensures var perMinute := if requestsPerMinute > 0 then requestsPerMinute else 60;
      var most := if burst > 0 then burst else perMinute;
      var c := MakeConfig(requestsPerMinute, burst);
      var from := EndTime(start, before);
      Admitted(c, map[], Volley(key, start, n), key) == (if n <= most then n else most) &&
      (most <= 5 * perMinute ==>
         Admitted(c, End(c, map[], before), window, key) as real <=
           most as real + (EndTime(from, window) - from) * (perMinute as real / 60.0)) &&
      (from <= now &&
       (forall i :: 0 <= i < |before| && before[i].Request? && before[i].key == key ==>
          now - before[i].at >= 60.0 / perMinute as real) ==>
         Take(c, End(c, map[], before), key, now).1)
  {
    hide Take, Sound, Level, Admitted, End, Ordered, EndTime;
    var c := MakeConfig(requestsPerMinute, burst);
    EmptySound(c, start);
    NewLevel(c, key, start);
    var after := VolleyAdmits(c, map[], key, start, n, []);
    assert Volley(key, start, n) + [] == Volley(key, start, n);
    assert Admitted(c, after, [], key) == 0 by { NoneAdmitted(c, after, key); }
    if c.burst <= 5 * c.perMinute { RateBound(c, start, before, window, key); }
    if EndTime(start, before) <= now &&
      forall i :: 0 <= i < |before| && before[i].Request? && before[i].key == key ==>
        now - before[i].at >= 60.0 / c.perMinute as real
    {
      SpacedNeverRefused(c, start, before, key, now);
    }
  }

  lemma NoneAdmitted(c: Config, m: Buckets, key: string)
    ensures Admitted(c, m, [], key) == 0
  {
  }
}
