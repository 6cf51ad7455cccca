/** How long a stored response can be looked up: until it is older than the time to live, or evicted by later stores. */
module StoreLifetimes {
  import opened Options
  import opened StoreModel
  import opened StoreRecovery

  /** A store that was not lost in a crash. */
  datatype Stored = Stored(id: string, response: Option<string>, t: int)

  /** The stores of a history, in order; a crash may lose the one it interrupts. */
  ghost function Surviving(lim: Limits, s: State, steps: seq<Step>): seq<Stored>
    decreases steps
  {
    if steps == [] then []
    else
      (match steps[0]
       case DoPut(id, response, t, _) => [Stored(id, response, t)]
       case DoCrash(id, response, t, ok, point, _) =>
         if Survives(lim, s, ok, point) then [Stored(id, response, t)] else []
       case _ => [])
      + Surviving(lim, Next(lim, s, steps[0]), steps[1..])
  }

  function LastOf(stores: seq<Stored>, id: string): Option<Stored>
    decreases |stores|
  {
    if stores == [] then None
    else if stores[|stores| - 1].id == id then Some(stores[|stores| - 1])
    else LastOf(stores[..|stores| - 1], id)
  }

  /** The stores behind the last one of `id`; all of them if there is none. */
  function Behind(stores: seq<Stored>, id: string): seq<Stored>
    decreases |stores|
  {
    if stores == [] || stores[|stores| - 1].id == id then []
    else Behind(stores[..|stores| - 1], id) + [stores[|stores| - 1]]
  }

  function Ids(stores: seq<Stored>): set<string> {
    set i | 0 <= i < |stores| :: stores[i].id
  }

  /** The last store behind it found the store full, and this entry the oldest: capacity - 1 other ids had come since.
      */
  predicate Evicted(maxSize: int, stores: seq<Stored>, id: string) {
    var later := Behind(stores, id);
    later != [] && |Ids(later[..|later| - 1])| >= maxSize - 1
  }

  // ---- The plain in-memory store ----

  ghost function Filled(lim: Limits, stores: seq<Stored>): Entries
    decreases |stores|
  {
    if stores == [] then map[]
    else
      var e := stores[|stores| - 1];
      Insert(lim, Filled(lim, stores[..|stores| - 1]), e.id, Entry(e.response, e.t))
  }

  predicate Increasing(stores: seq<Stored>) {
    forall i, j :: 0 <= i < j < |stores| ==> stores[i].t < stores[j].t
  }

  /** The entries that came after that of `id`. */
  function Newer(m: Entries, id: string): set<string>
    requires id in m
  {
    set k | k in m && m[k].createdAt > m[id].createdAt
  }

  /** What the map must hold under `id`. */
  predicate AccountOf(lim: Limits, stores: seq<Stored>, m: Entries, id: string) {
    (id in m <==> LastOf(stores, id).Some? && !Evicted(lim.maxSize, stores, id)) &&
    (id in m ==>
       m[id] == Entry(LastOf(stores, id).value.response, LastOf(stores, id).value.t) &&
       Newer(m, id) == Ids(Behind(stores, id)))
  }

  ghost predicate Account(lim: Limits, stores: seq<Stored>, m: Entries) {
    |m| <= lim.maxSize && DistinctTimes(m) &&
    (forall k :: k in m ==> stores != [] && m[k].createdAt <= stores[|stores| - 1].t) &&
    forall id :: AccountOf(lim, stores, m, id)
  }

  lemma BehindSnoc(stores: seq<Stored>, e: Stored, id: string)
    ensures LastOf(stores + [e], id) == if e.id == id then Some(e) else LastOf(stores, id)
    ensures Behind(stores + [e], id) == if e.id == id then [] else Behind(stores, id) + [e]
  {
    assert (stores + [e])[..|stores|] == stores;
  }

  lemma IdsSnoc(stores: seq<Stored>, e: Stored)
    ensures Ids(stores + [e]) == Ids(stores) + {e.id}
  {
    assert (stores + [e])[|stores|] == e && forall i :: 0 <= i < |stores| ==> (stores + [e])[i] == stores[i];
  }

  lemma EvictedSnoc(maxSize: int, stores: seq<Stored>, e: Stored, id: string)
    requires e.id != id
    ensures Evicted(maxSize, stores + [e], id) <==> |Ids(Behind(stores, id))| >= maxSize - 1
    ensures Evicted(maxSize, stores, id) ==> Evicted(maxSize, stores + [e], id)
  {
    hide Ids, Behind;
    BehindSnoc(stores, e, id);
    var later := Behind(stores, id);
    assert (later + [e])[..|later|] == later;
    if later != [] {
      var n := |later| - 1;
      IdsSnoc(later[..n], later[n]);
      assert later == later[..n] + [later[n]];
      SubsetSize(Ids(later[..n]), Ids(later));
    }
  }

  /** In a map with distinct times, the entry with all others newer is the oldest. */
  lemma OldestHasAllNewer(lim: Limits, m: Entries, id: string)
    requires lim.Valid() && id in m && DistinctTimes(m) && |m| <= lim.maxSize
    ensures |Newer(m, id)| >= lim.maxSize - 1 <==> |m| >= lim.maxSize && OldestId(m) == id
  {
    var others := m.Keys - {id};
    assert m.Keys == others + {id};
    SubsetSize(Newer(m, id), others);
    if Newer(m, id) == others {
      assert IsOldest(m, id);
      assert m[OldestId(m)].createdAt == m[id].createdAt;
    }
    if OldestId(m) == id {
      assert forall k :: k in others ==> k in Newer(m, id);
      assert Newer(m, id) == others;
    }
  }

  /** The map after making room. */
  ghost function Roomy(lim: Limits, m: Entries): Entries {
    if |m| >= lim.maxSize then Evict(m) else m
  }

  lemma RoomyIs(lim: Limits, m: Entries, id: string)
    requires lim.Valid() && DistinctTimes(m) && |m| <= lim.maxSize
    ensures id in Roomy(lim, m) <==> id in m && !(|m| >= lim.maxSize && OldestId(m) == id)
    ensures id in Roomy(lim, m) ==> Roomy(lim, m)[id] == m[id] && Newer(Roomy(lim, m), id) == Newer(m, id)
    ensures |Roomy(lim, m)| < lim.maxSize || |m| == 0
    ensures DistinctTimes(Roomy(lim, m)) && forall k :: k in Roomy(lim, m) ==> k in m && Roomy(lim, m)[k] == m[k]
  {
    if |m| >= lim.maxSize {
      assert IsOldest(m, OldestId(m));
    }
  }

  lemma NewestIn(m: Entries, id: string, e: Entry, k: string)
    requires forall j :: j in m ==> m[j].createdAt < e.createdAt
    ensures Newer(m[id := e], id) == {}
    ensures k in m && k != id ==> Newer(m[id := e], k) == Newer(m, k) + {id}
  {
  }

  lemma AccountStep(lim: Limits, stores: seq<Stored>, m: Entries, e: Stored, id: string)
    requires lim.Valid() && Account(lim, stores, m) && (stores != [] ==> stores[|stores| - 1].t < e.t)
    ensures AccountOf(lim, stores + [e], Insert(lim, m, e.id, Entry(e.response, e.t)), id)
  {
    hide Ids, Behind, LastOf, Evicted, Newer, Evict, OldestId, DistinctTimes;
    var (m1, entry) := (Roomy(lim, m), Entry(e.response, e.t));
    var m2 := m1[e.id := entry];
    assert m2 == Insert(lim, m, e.id, entry);
    assert AccountOf(lim, stores, m, id);
    BehindSnoc(stores, e, id);
    RoomyIs(lim, m, id);
    NewestIn(m1, e.id, entry, id);
    if id == e.id {
      NothingBehind(lim.maxSize, stores + [e], id);
    } else {
      EvictedSnoc(lim.maxSize, stores, e, id);
      IdsSnoc(Behind(stores, id), e);
      if id in m { OldestHasAllNewer(lim, m, id); }
    }
  }

  lemma NothingBehind(maxSize: int, stores: seq<Stored>, id: string)
    requires Behind(stores, id) == []
    ensures !Evicted(maxSize, stores, id) && Ids([]) == {}
  {
  }

  lemma {:induction false} FilledAccount(lim: Limits, stores: seq<Stored>)
    requires lim.Valid() && Increasing(stores)
    ensures Account(lim, stores, Filled(lim, stores))
    decreases |stores|
  {
    hide Insert, AccountOf;
    if stores == [] {
      forall id ensures AccountOf(lim, [], map[], id) { NothingStored(lim, id); }
    } else {
      var n := |stores| - 1;
      var (front, e) := (stores[..n], stores[n]);
      FilledAccount(lim, front);
      var m := Filled(lim, front);
      assert stores == front + [e];
      forall id ensures AccountOf(lim, front + [e], Insert(lim, m, e.id, Entry(e.response, e.t)), id) {
        AccountStep(lim, front, m, e, id);
      }
      InsertKeeps(lim, m, e);
    }
  }

  lemma NothingStored(lim: Limits, id: string)
    ensures AccountOf(lim, [], map[], id)
  {
  }

  lemma InsertKeeps(lim: Limits, m: Entries, e: Stored)
    requires lim.Valid() && |m| <= lim.maxSize && DistinctTimes(m) && forall k :: k in m ==> m[k].createdAt < e.t
    ensures var n := Insert(lim, m, e.id, Entry(e.response, e.t));
      |n| <= lim.maxSize && DistinctTimes(n) && forall k :: k in n ==> n[k].createdAt <= e.t
  {
    var entry := Entry(e.response, e.t);
    RoomyIs(lim, m, e.id);
    UpdateSize(Roomy(lim, m), e.id, entry);
    assert Insert(lim, m, e.id, entry) == Roomy(lim, m)[e.id := entry];
  }

  // ---- Histories ----

  lemma SurvivingTimes(lim: Limits, s: State, clock: int, stores: seq<Stored>, steps: seq<Step>)
    requires Increasing(stores) && (stores != [] ==> stores[|stores| - 1].t <= clock) && AllTimely(clock, steps)
    ensures Increasing(stores + Surviving(lim, s, steps))
    decreases steps
  {
    hide Next, Survives;
    if steps == [] {
      assert stores + [] == stores;
    } else {
      var rest := Surviving(lim, Next(lim, s, steps[0]), steps[1..]);
      var more := match steps[0]
        case DoPut(id, response, t, _) => [Stored(id, response, t)]
        case DoCrash(id, response, t, ok, point, _) =>
          if Survives(lim, s, ok, point) then [Stored(id, response, t)] else []
        case _ => [];
      SurvivingTimes(lim, Next(lim, s, steps[0]), Clock(clock, steps[0]), stores + more, steps[1..]);
      assert stores + more + rest == stores + (more + rest);
    }
  }

  lemma {:induction false} IdealIsFilled(lim: Limits, s: State, stores: seq<Stored>, steps: seq<Step>)
    ensures IdealRun(lim, Filled(lim, stores), s, steps) == Filled(lim, stores + Surviving(lim, s, steps))
    decreases steps, 0
  {
    hide Next, Survives, Insert;
    if steps == [] {
      assert stores + [] == stores;
    } else {
      var next := Next(lim, s, steps[0]);
      var rest := Surviving(lim, next, steps[1..]);
      match steps[0] {
        case DoPut(id, response, t, _) => OneMore(lim, next, stores, Stored(id, response, t), steps[1..]);
        case DoCrash(id, response, t, ok, point, _) =>
          if Survives(lim, s, ok, point) {
            OneMore(lim, next, stores, Stored(id, response, t), steps[1..]);
          } else {
            NoneMore(lim, next, stores, steps[1..]);
          }
        case _ => NoneMore(lim, next, stores, steps[1..]);
      }
    }
  }

  lemma {:induction false} OneMore(lim: Limits, s: State, stores: seq<Stored>, e: Stored, steps: seq<Step>)
    ensures IdealRun(lim, Insert(lim, Filled(lim, stores), e.id, Entry(e.response, e.t)), s, steps) ==
      Filled(lim, stores + ([e] + Surviving(lim, s, steps)))
    decreases steps, 1
  {
    hide Insert, IdealRun, Surviving;
    IdealIsFilled(lim, s, stores + [e], steps);
    assert (stores + [e])[..|stores|] == stores;
    assert stores + [e] + Surviving(lim, s, steps) == stores + ([e] + Surviving(lim, s, steps));
  }

  lemma {:induction false} NoneMore(lim: Limits, s: State, stores: seq<Stored>, steps: seq<Step>)
    ensures IdealRun(lim, Filled(lim, stores), s, steps) == Filled(lim, stores + ([] + Surviving(lim, s, steps)))
    decreases steps, 1
  {
    hide Insert, IdealRun, Surviving;
    IdealIsFilled(lim, s, stores, steps);
    assert [] + Surviving(lim, s, steps) == Surviving(lim, s, steps);
  }

  /** Main result: after any timely history a lookup answers with the response of the last surviving store of the id
      if that is no older than the time to live and has not been evicted, and with nothing otherwise. */
  lemma LookupLaw(lim: Limits, start: int, steps: seq<Step>, id: string, now: int)
    requires lim.Valid() && AllTimely(start, steps) && EndClock(start, steps) <= now
    ensures var s := State(map[], [], 0);
      var stores := Surviving(lim, s, steps);
      Get(lim, Run(lim, s, steps).entries, id, now) ==
      match LastOf(stores, id)
      case None => None
      case Some(last) => if now - last.t <= lim.ttl && !Evicted(lim.maxSize, stores, id) then last.response else None
  {
    hide Run, IdealRun, Surviving, AllTimely, EndClock, LastOf, Evicted, Newer, Ids, Behind;
    var s := State(map[], [], 0);
    var stores := Surviving(lim, s, steps);
    LookupsSurvive(lim, start, steps, id, now);
    SurvivingTimes(lim, s, start, [], steps);
    assert [] + stores == stores;
    IdealIsFilled(lim, s, [], steps);
    FilledAccount(lim, stores);
    assert AccountOf(lim, stores, Filled(lim, stores), id);
  }

  /** A clean-up, and a restart whenever the log is right, keep exactly the entries no older than the time to live. */
  lemma KeptIffFresh(lim: Limits, s: State, clock: int, t: int, ok: bool, id: string)
    requires Inv(lim, s, clock) && clock <= t
    ensures var (cleaned, reloaded) := (Clean(lim, s, t, ok).entries, Reload(lim, s.log, t).entries);
      (id in cleaned <==> id in s.entries && t - s.entries[id].createdAt <= lim.ttl) &&
      (id in cleaned ==> cleaned[id] == s.entries[id]) && reloaded == cleaned
  {
    hide Replay;
    ReloadKeeps(lim, s.entries, s.log, clock, t);
  }

  /** Loading any log, right or not, never shows a record older than the time to live. */
  lemma {:induction false} ReloadFresh(lim: Limits, log: seq<Record>, t: int, id: string)
    ensures var m := Replay(lim, log, t); id in m ==> t - m[id].createdAt <= lim.ttl
    decreases |log|
  {
    hide Evict;
    if log != [] {
      var n := |log| - 1;
      ReloadFresh(lim, log[..n], t, id);
      EvictedPart(Replay(lim, log[..n], t), id);
    }
  }

  lemma EvictedPart(m: Entries, id: string)
    ensures id in Evict(m) ==> id in m && Evict(m)[id] == m[id]
  {
  }
}
