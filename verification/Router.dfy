/** The backend router (backend/router.go): eligible backends in priority order, rotated by a shared counter. */
module Routers {
  import opened ModelPatterns
  import opened Options
  import opened Rotations

  datatype Strategy = RoundRobin | Weighted

  datatype BackendConfig = BackendConfig(name: string, url: string, models: seq<string>, weight: int, priority: int,
                                         enabled: Option<bool>)

  /** rotate; `None` is the run-time panic of slicing at a negative index. */
  function Rotate(s: seq<Runtime>, offset: int): Option<seq<Runtime>> {
    if s == [] then Some([])
    else
      var start := GoMod(offset, |s|);
      if start < 0 then None else Some(Rotated(s, start))
  }

  /** The order of the eligible backends for counter value `v`. */
  function OrderFor(strategy: Strategy, s: seq<Runtime>, v: nat): Option<seq<Runtime>>
    requires v < WORD
  {
    if |s| <= 1 then Some(s)
    else if strategy.Weighted? then
      match Rotate(Expand(s), ToInt(v))
      case None => None
      case Some(rotated) => Some(Firsts(rotated, {}))
    else Rotate(s, ToInt(v))
  }

  function Eligible(s: seq<Runtime>, model: string): seq<Runtime> {
    if s == [] then []
    else (if s[0].backend.enabled && s[0].Serves(model) then [s[0]] else []) + Eligible(s[1..], model)
  }

  function Limited(s: seq<Runtime>, limit: int): seq<Runtime> {
    if 0 < limit < |s| then s[..limit] else s
  }

  /** By priority, and in configuration order within a priority. */
  predicate Before(a: Runtime, b: Runtime) {
    a.backend.priority < b.backend.priority || (a.backend.priority == b.backend.priority && a.address < b.address)
  }

  predicate Sorted(s: seq<Runtime>) {
    forall i, j :: 0 <= i < j < |s| ==> Before(s[i], s[j])
  }

  lemma SortedIsDistinct(s: seq<Runtime>)
    requires Sorted(s)
    ensures Distinct(s)
  {
  }

  class Router {
    var runtimes: seq<Runtime>
    var strategy: Strategy
    var next: nat

    ghost predicate Valid()
      reads this
    {
      next < WORD && Sorted(runtimes)
    }

    /** NewRouter: disabled backends are dropped, defaults filled in, and the rest sorted by priority, stably. */
    constructor (configs: seq<BackendConfig>, strategy: Strategy)
      ensures Valid() && next == 0 && this.strategy == strategy
      ensures multiset(runtimes) == multiset(Kept(configs))
    {
      this.strategy := strategy;
      next := 0;
      runtimes := [];
      new;
      runtimes := Build(configs);
    }

    static method Build(configs: seq<BackendConfig>) returns (runtimes: seq<Runtime>)
      ensures Sorted(runtimes) && multiset(runtimes) == multiset(Kept(configs))
    {
      hide Before, Sorted, Insert, MakeRuntime, Kept, KeptOne;
      runtimes := [];
      SortedNone();
      KeptStep(configs, 0);
      assert configs[..0] == [];
      var i := 0;
      while i < |configs|
        invariant 0 <= i <= |configs|
        invariant Sorted(runtimes) && forall r :: r in runtimes ==> r.address < i
        invariant multiset(runtimes) == multiset(Kept(configs[..i]))
      {
        KeptStep(configs, i);
        if configs[i].enabled != Some(false) {
          InsertSorted(runtimes, MakeRuntime(configs[i], i));
          runtimes := Insert(runtimes, MakeRuntime(configs[i], i));
        }
        i := i + 1;
      }
      assert configs[..i] == configs;
    }

    /** Candidates; `None` is a panic inside rotate. */
    method Candidates(model: string, limit: int) returns (ordered: Option<seq<Runtime>>)
      requires Valid()
      modifies this`next
      ensures Valid()
      ensures var matches := Eligible(runtimes, model);
        next == (if |matches| <= 1 then old(next) else (old(next) + 1) % WORD) &&
        ordered == match OrderFor(strategy, matches, old(next))
                   case None => None
                   case Some(s) => Some(Limited(s, limit))
    {
      hide OrderFor, Eligible, Sorted;
      var matches := Matching(model);
      ordered := Order(matches);
      if ordered == None {
        return None;
      }
      var s := ordered.value;
      if limit > 0 && |s| > limit {
        s := s[..limit];
      }
      ordered := Some(s);
    }

    method Matching(model: string) returns (matches: seq<Runtime>)
      ensures matches == Eligible(runtimes, model)
    {
      matches := [];
      var i := 0;
      while i < |runtimes|
        invariant 0 <= i <= |runtimes|
        invariant Eligible(runtimes, model) == matches + Eligible(runtimes[i..], model)
      {
        var runtime := runtimes[i];
        assert runtimes[i..][1..] == runtimes[i + 1..];
        if runtime.backend.enabled && runtime.Serves(model) {
          matches := matches + [runtime];
        }
        i := i + 1;
      }
      assert matches + [] == matches;
    }

    method Order(matches: seq<Runtime>) returns (ordered: Option<seq<Runtime>>)
      requires Valid()
      modifies this`next
      ensures Valid() && ordered == OrderFor(strategy, matches, old(next))
      ensures next == if |matches| <= 1 then old(next) else (old(next) + 1) % WORD
    {
      if |matches| <= 1 {
        return Some(matches);
      }
      var offset := ToInt(next);
      next := (next + 1) % WORD;
      if strategy == Weighted {
        ordered := WeightedFrom(matches, offset);
      } else {
        ordered := Rotate(matches, offset);
      }
    }

    static method WeightedFrom(matches: seq<Runtime>, offset: int) returns (ordered: Option<seq<Runtime>>)
      ensures ordered == match Rotate(Expand(matches), offset)
                         case None => None
                         case Some(rotated) => Some(Firsts(rotated, {}))
    {
      var expanded := ExpandAll(matches);
      var rotated := Rotate(expanded, offset);
      if rotated == None {
        return None;
      }
      var result := DropRepeated(rotated.value);
      return Some(result);
    }

    /** Each backend as often as its weight says. */
    static method ExpandAll(matches: seq<Runtime>) returns (expanded: seq<Runtime>)
      ensures expanded == Expand(matches)
    {
      hide Expand, Copies;
      expanded := [];
      var i := 0;
      assert matches[0..] == matches && [] + Expand(matches) == Expand(matches);
      while i < |matches|
        invariant 0 <= i <= |matches| && Expand(matches) == expanded + Expand(matches[i..])
      {
        var weight := matches[i].backend.weight;
        if weight <= 0 {
          weight := 1;
        }
        ExpandStep(matches, i);
        ghost var (before, later) := (expanded, Expand(matches[i + 1..]));
        expanded := AppendCopies(expanded, matches[i], weight);
        assert before + (Copies(matches[i], weight) + later) == expanded + later;
        i := i + 1;
      }
      assert Expand(matches[i..]) == [] by { ExpandNone(matches[i..]); }
      assert expanded + [] == expanded;
    }

    static method AppendCopies(expanded: seq<Runtime>, x: Runtime, weight: nat) returns (longer: seq<Runtime>)
      ensures longer == expanded + Copies(x, weight)
    {
      longer := expanded;
      for n := 0 to weight
        invariant longer == expanded + Copies(x, n)
      {
        longer := longer + [x];
      }
    }

    /** The `seen` loop. */
    static method DropRepeated(all: seq<Runtime>) returns (result: seq<Runtime>)
      ensures result == Firsts(all, {})
    {
      var seen: set<Runtime> := {};
      result := [];
      var i := 0;
      while i < |all|
        invariant 0 <= i <= |all| && Firsts(all, {}) == result + Firsts(all[i..], seen)
      {
        assert all[i..][1..] == all[i + 1..];
        if all[i] !in seen {
          seen := seen + {all[i]};
          result := result + [all[i]];
        }
        i := i + 1;
      }
      assert result + [] == result;
    }
  }

  lemma ExpandStep(s: seq<Runtime>, i: nat)
    requires i < |s|
    ensures Expand(s[i..]) == Copies(s[i], Weight(s[i])) + Expand(s[i + 1..])
  {
    assert s[i..][1..] == s[i + 1..];
  }

  lemma ExpandNone(s: seq<Runtime>)
    requires s == []
    ensures Expand(s) == []
  {
  }

  function MakeRuntime(c: BackendConfig, address: nat): Runtime {
    Runtime(address, Backend(c.name, c.url, if c.models == [] then ["*"] else c.models,
                             if c.weight <= 0 then 1 else c.weight, c.priority, true))
  }

  /** The backends that are not disabled, in configuration order. */
  function Kept(configs: seq<BackendConfig>): seq<Runtime> {
    if configs == [] then []
    else
      var last := |configs| - 1;
      Kept(configs[..last]) + KeptOne(configs[last], last)
  }

  function KeptOne(c: BackendConfig, address: nat): seq<Runtime> {
    if c.enabled == Some(false) then [] else [MakeRuntime(c, address)]
  }

  lemma KeptStep(configs: seq<BackendConfig>, i: nat)
    ensures Kept([]) == []
    ensures i < |configs| ==> MakeRuntime(configs[i], i).address == i
    ensures i < |configs| && configs[i].enabled == Some(false) ==> Kept(configs[..i + 1]) == Kept(configs[..i])
    ensures i < |configs| && configs[i].enabled != Some(false) ==>
      multiset(Kept(configs[..i + 1])) == multiset(Kept(configs[..i])) + multiset{MakeRuntime(configs[i], i)}
  {
    if i < |configs| {
      assert configs[..i + 1][..i] == configs[..i];
      assert Kept(configs[..i]) + [] == Kept(configs[..i]);
    }
  }

  /** One step of a stable sort: behind everything of the same or a smaller priority. */
  function Insert(s: seq<Runtime>, x: Runtime): seq<Runtime> {
    if s == [] || x.backend.priority < s[0].backend.priority then [x] + s
    else [s[0]] + Insert(s[1..], x)
  }

  lemma {:induction false} InsertSorted(s: seq<Runtime>, x: Runtime)
    requires Sorted(s) && forall r :: r in s ==> r.address < x.address
    ensures Sorted(Insert(s, x)) && multiset(Insert(s, x)) == multiset(s) + multiset{x}
    ensures forall r :: r in Insert(s, x) ==> r in s || r == x
  {
    hide Before, Sorted;
    if s == [] || x.backend.priority < s[0].backend.priority {
      BeforeAll(s, x);
      SortedCons(x, s);
    } else {
      assert s == [s[0]] + s[1..];
      SortedTail(s);
      InsertSorted(s[1..], x);
      assert Before(s[0], x) by { NotBefore(s[0], x); }
      SortedCons(s[0], Insert(s[1..], x));
    }
  }

  lemma NotBefore(a: Runtime, x: Runtime)
    requires !(x.backend.priority < a.backend.priority) && a.address < x.address
    ensures Before(a, x)
  {
  }

  lemma BeforeAll(s: seq<Runtime>, x: Runtime)
    requires Sorted(s) && (s != [] ==> x.backend.priority < s[0].backend.priority)
    ensures forall r :: r in s ==> Before(x, r)
  {
    forall i | 0 <= i < |s| ensures Before(x, s[i]) {
      if i > 0 { assert Before(s[0], s[i]); }
    }
  }

  lemma SortedTail(s: seq<Runtime>)
    requires Sorted(s) && s != []
    ensures Sorted(s[1..]) && forall r :: r in s[1..] ==> Before(s[0], r)
  {
    hide Before;
    forall r | r in s[1..] ensures Before(s[0], r) {
      var i :| 0 <= i < |s[1..]| && s[1..][i] == r;
      assert s[i + 1] == r;
    }
  }

  lemma SortedCons(a: Runtime, t: seq<Runtime>)
    requires Sorted(t) && forall r :: r in t ==> Before(a, r)
    ensures Sorted([a] + t)
  {
    hide Before;
  }

  // ---- What the order looks like ----

  lemma {:induction false} EligibleSorted(s: seq<Runtime>, model: string)
    requires Sorted(s)
    ensures Sorted(Eligible(s, model))
    ensures forall r :: r in Eligible(s, model) <==> r in s && r.backend.enabled && r.Serves(model)
  {
    hide Before, Sorted, Runtime.Serves;
    if s == [] {
      SortedNone();
    } else {
      SortedTail(s);
      EligibleSorted(s[1..], model);
      SortedCons(s[0], Eligible(s[1..], model));
      assert s == [s[0]] + s[1..];
      assert [] + Eligible(s[1..], model) == Eligible(s[1..], model);
    }
  }

  lemma SortedNone()
    ensures Sorted([])
  {
  }

  lemma {:induction false} ExpandLength(s: seq<Runtime>)
    ensures |Expand(s)| >= |s|
  {
    if s != [] { ExpandLength(s[1..]); }
  }

  /** Main result: below 2^63 calls, every answer is a cyclic rotation of the eligible backends in priority order,
      cut to the limit; under round robin it is led by the backend whose turn it is. */
  lemma OrderIsRotation(strategy: Strategy, s: seq<Runtime>, v: nat) returns (j: nat)
    requires Sorted(s) && v < SIGN && s != []
    ensures j < |s| && OrderFor(strategy, s, v) == Some(Rotated(s, j))
    ensures strategy.RoundRobin? && |s| > 1 ==> j == v % |s|
    ensures strategy.Weighted? && |s| > 1 ==> j == BlockOf(s, v % |Expand(s)|)
  {
    hide Sorted, Expand, Firsts, BlockOf;
    SortedIsDistinct(s);
    ExpandLength(s);
    if |s| <= 1 {
      j := 0;
      assert Rotated(s, 0) == s;
    } else if strategy.Weighted? {
      var k := v % |Expand(s)|;
      WeightedOrder(s, k);
      j := BlockOf(s, k);
    } else {
      j := v % |s|;
    }
  }

  /** A call panics exactly when the counter has passed 2^63 and the negative offset is no multiple of the length. */
  lemma PanicIff(s: seq<Runtime>, v: nat)
    requires v < WORD
    ensures Rotate(s, ToInt(v)) == None <==> s != [] && v >= SIGN && (WORD - v) % |s| != 0
  {
  }

  // ---- Fairness ----

  /** The leaders of `n` consecutive calls from counter value `v` on. */
  function Leaders(strategy: Strategy, s: seq<Runtime>, v: nat, n: nat): seq<Runtime>
    requires |s| > 1 && v + n < WORD
  {
    if n == 0 then []
    else
      Leaders(strategy, s, v, n - 1) +
      match OrderFor(strategy, s, v + n - 1)
      case None => []
      case Some(order) => if order == [] then [] else [order[0]]
  }

  /** One full turn of the expansion. */
  function Turn(strategy: Strategy, s: seq<Runtime>): seq<Runtime> {
    if strategy.Weighted? then Expand(s) else s
  }

  lemma LeaderOf(strategy: Strategy, s: seq<Runtime>, v: nat)
    requires Sorted(s) && |s| > 1 && v < SIGN
    ensures |Turn(strategy, s)| > 0
    ensures OrderFor(strategy, s, v).Some? && OrderFor(strategy, s, v).value != []
    ensures OrderFor(strategy, s, v).value[0] == Turn(strategy, s)[v % |Turn(strategy, s)|]
  {
    hide Sorted, OrderFor;
    ExpandLength(s);
    var j := OrderIsRotation(strategy, s, v);
    assert Rotated(s, j)[0] == s[j];
  }

  lemma {:induction false} LeadersAre(strategy: Strategy, s: seq<Runtime>, v: nat, n: nat)
    requires Sorted(s) && |s| > 1 && v + n <= SIGN && |Turn(strategy, s)| > 0
    ensures |Leaders(strategy, s, v, n)| == n
    ensures forall k :: 0 <= k < n ==>
      Leaders(strategy, s, v, n)[k] == Turn(strategy, s)[(v + k) % |Turn(strategy, s)|]
    decreases n
  {
    hide Sorted, OrderFor, Turn;
    if n > 0 {
      LeadersAre(strategy, s, v, n - 1);
      LeaderOf(strategy, s, v + n - 1);
    }
  }

  /** Counting around the circle. */
  lemma TurnIndex(v: nat, k: nat, w: nat)
    requires k < w
    ensures (v + k) % w == if v % w + k < w then v % w + k else v % w + k - w
  {
    var q, r := v / w, v % w;
    assert v + k == q * w + (r + k);
    if r + k < w {
      Unique(q, r + k, v + k, w);
    } else {
      assert v + k == (q + 1) * w + (r + k - w);
      Unique(q + 1, r + k - w, v + k, w);
    }
  }

  lemma Unique(q: nat, r: nat, n: nat, w: nat)
    requires r < w && n == q * w + r
    ensures n % w == r
  {
    if q < n / w {
      Multiples(q, n / w, w);
    } else if n / w < q {
      Multiples(n / w, q, w);
    }
  }

  lemma {:induction false} Multiples(a: nat, b: nat, w: nat)
    requires a < b
    ensures a * w + w <= b * w
  {
    if a + 1 < b { Multiples(a, b - 1, w); }
    assert (b - 1) * w + w == b * w;
  }

  lemma LeadersRotate(strategy: Strategy, s: seq<Runtime>, v: nat)
    requires Sorted(s) && |s| > 1 && |Turn(strategy, s)| > 0 && v + |Turn(strategy, s)| <= SIGN
    ensures var t := Turn(strategy, s);
      Leaders(strategy, s, v, |t|) == Rotated(t, v % |t|)
  {
    hide Sorted, Turn;
    var t := Turn(strategy, s);
    var w := |t|;
    LeadersAre(strategy, s, v, w);
    forall k | 0 <= k < w ensures Leaders(strategy, s, v, w)[k] == Rotated(t, v % w)[k] {
      TurnIndex(v, k, w);
    }
  }

  lemma RotatedSame(t: seq<Runtime>, k: nat)
    requires k <= |t|
    ensures multiset(Rotated(t, k)) == multiset(t)
  {
    assert t == t[..k] + t[k..];
  }

  lemma {:induction false} CopiesCount(x: Runtime, n: nat, y: Runtime)
    ensures multiset(Copies(x, n))[y] == if x == y then n else 0
    decreases n
  {
    if n > 0 {
      CopiesCount(x, n - 1, y);
      assert Copies(x, n) == Copies(x, n - 1) + [x];
    }
  }

  lemma {:induction false} ExpandCount(s: seq<Runtime>, i: nat)
    requires Distinct(s) && i < |s|
    ensures multiset(Expand(s))[s[i]] == Weight(s[i])
    decreases |s|
  {
    CopiesCount(s[0], Weight(s[0]), s[i]);
    if i == 0 {
      NotExpanded(s[1..], s[0]);
    } else {
      ExpandCount(s[1..], i - 1);
    }
  }

  lemma {:induction false} NotExpanded(s: seq<Runtime>, x: Runtime)
    requires x !in s
    ensures multiset(Expand(s))[x] == 0
  {
    if s != [] {
      CopiesCount(s[0], Weight(s[0]), x);
      NotExpanded(s[1..], x);
    }
  }

  /** Main result: among any W consecutive calls below 2^63, W the total weight, each backend leads exactly `weight`
      times. */
  lemma WeightedFairness(s: seq<Runtime>, v: nat, i: nat)
    requires Sorted(s) && |s| > 1 && i < |s| && v + |Expand(s)| <= SIGN
    ensures multiset(Leaders(Weighted, s, v, |Expand(s)|))[s[i]] == Weight(s[i])
  {
    hide Sorted, Leaders, Expand;
    ExpandLength(s);
    LeadersRotate(Weighted, s, v);
    RotatedSame(Expand(s), v % |Expand(s)|);
    SortedIsDistinct(s);
    ExpandCount(s, i);
  }

  /** The same for round robin: each of the n backends leads exactly once in n calls. */
  lemma RoundRobinFairness(s: seq<Runtime>, v: nat)
    requires Sorted(s) && |s| > 1 && v + |s| <= SIGN
    ensures multiset(Leaders(RoundRobin, s, v, |s|)) == multiset(s)
  {
    hide Sorted, Leaders, Expand;
    LeadersRotate(RoundRobin, s, v);
    RotatedSame(s, v % |s|);
  }

  // ---- In terms of the configuration ----

  /** Exactly the backends that are not disabled are kept, each with its own settings; without models it serves all,
      and a weight below one counts as one. */
  lemma {:induction false} KeptIff(configs: seq<BackendConfig>, r: Runtime)
    ensures r in Kept(configs) <==>
      r.address < |configs| && configs[r.address].enabled != Some(false) &&
      var c := configs[r.address];
      r.backend.name == c.name && r.backend.url == c.url && r.backend.priority == c.priority && r.backend.enabled &&
      r.backend.models == (if c.models == [] then ["*"] else c.models) &&
      r.backend.weight == (if c.weight >= 1 then c.weight else 1)
    decreases |configs|
  {
    if configs != [] {
      KeptIff(configs[..|configs| - 1], r);
    }
  }

  lemma {:induction false} KeptOnce(configs: seq<BackendConfig>, r: Runtime)
    ensures multiset(Kept(configs))[r] <= 1 && (r in Kept(configs) ==> r.address < |configs|)
    decreases |configs|
  {
    hide MakeRuntime;
    if configs != [] {
      var n := |configs| - 1;
      KeptOnce(configs[..n], r);
      KeptStep(configs, n);
      assert configs[..n + 1] == configs;
    }
  }

  /** Cut to the limit: the first `limit` if there are more, all if the limit is no positive number. */
  lemma LimitLaw(s: seq<Runtime>, limit: int)
    ensures Limited(s, limit) <= s
    ensures |Limited(s, limit)| == if 0 < limit <= |s| then limit else |s|
  {
  }

  /** Main result on configured weights: among the backends that NewRouter built from `configs`, an enabled one that
      serves the model leads exactly as many of any W consecutive calls below 2^63 as its weight says, one if that is
      below one; W is the total of the expansion. A disabled one is never tried. */
  lemma ConfiguredFairness(configs: seq<BackendConfig>, runtimes: seq<Runtime>, model: string, v: nat, i: nat)
    requires Sorted(runtimes) && multiset(runtimes) == multiset(Kept(configs)) && i < |configs|
    requires var s := Eligible(runtimes, model); |s| > 1 && v + |Expand(s)| <= SIGN
    ensures var s := Eligible(runtimes, model);
      var serves := exists p ::
        p in (if configs[i].models == [] then ["*"] else configs[i].models) && Matches(p, model);
      if configs[i].enabled == Some(false) || !serves then forall r :: r in s ==> r.address != i
      else
        exists r :: r in s && r.address == i &&
          multiset(Leaders(Weighted, s, v, |Expand(s)|))[r] == if configs[i].weight >= 1 then configs[i].weight else 1
  {
    hide Sorted, Leaders, Expand, Eligible, Kept, Matches;
    var s := Eligible(runtimes, model);
    EligibleSorted(runtimes, model);
    var r := MakeRuntime(configs[i], i);
    forall x ensures x in runtimes <==> x in Kept(configs) {
      assert x in runtimes <==> x in multiset(runtimes);
      assert x in Kept(configs) <==> x in multiset(Kept(configs));
    }
    forall x | x in s && x.address == i ensures x == r && configs[i].enabled != Some(false) {
      KeptIff(configs, x);
    }
    KeptIff(configs, r);
    assert r.Serves(model) <==> exists p ::
      p in (if configs[i].models == [] then ["*"] else configs[i].models) && Matches(p, model);
    if r in s {
      var k :| 0 <= k < |s| && s[k] == r;
      WeightedFairness(s, v, k);
    }
  }
}
