/** The response store on values: what memory holds, what the log holds, and how one is rebuilt from the other. */
module StoreModel {
  import opened Options

  /** A response is opaque here; a nil response is `None`. */
  datatype Entry = Entry(response: Option<string>, createdAt: int)
  datatype Record = Record(id: string, createdAt: int, response: Option<string>)

  type Entries = map<string, Entry>

  /** Time to live and capacity. */
  datatype Limits = Limits(ttl: int, maxSize: int) {
    ghost predicate Valid() {
      ttl > 0 && maxSize > 0
    }
  }

  predicate Expired(lim: Limits, createdAt: int, now: int) {
    now - createdAt > lim.ttl
  }

  /** What a reader can see at time `now`. */
  function View(lim: Limits, m: Entries, now: int): Entries {
    map id | id in m && !Expired(lim, m[id].createdAt, now) :: m[id]
  }

  predicate IsOldest(m: Entries, id: string) {
    id in m && forall k :: k in m ==> m[id].createdAt <= m[k].createdAt
  }

  predicate IsNewest(m: Entries, id: string) {
    id in m && forall k :: k in m ==> m[k].createdAt <= m[id].createdAt
  }

  predicate DistinctTimes(m: Entries) {
    forall a, b :: a in m && b in m && a != b ==> m[a].createdAt != m[b].createdAt
  }

  lemma {:induction false} OldestExists(m: Entries)
    requires m != map[]
    ensures exists id :: IsOldest(m, id)
    decreases |m.Keys|
  {
    var any :| any in m;
    var rest := m - {any};
    assert rest.Keys == m.Keys - {any};
    if rest == map[] {
      assert rest.Keys == {} && m.Keys <= {any};
      assert IsOldest(m, any);
    } else {
      OldestExists(rest);
      var o :| IsOldest(rest, o);
      var best := if m[any].createdAt < m[o].createdAt then any else o;
      assert forall k :: k in m ==> k == any || k in rest;
      assert IsOldest(m, best);
    }
  }

  lemma {:induction false} NewestExists(m: Entries)
    requires m != map[]
    ensures exists id :: IsNewest(m, id)
    decreases |m.Keys|
  {
    var any :| any in m;
    var rest := m - {any};
    assert rest.Keys == m.Keys - {any};
    if rest == map[] {
      assert rest.Keys == {} && m.Keys <= {any};
      assert IsNewest(m, any);
    } else {
      NewestExists(rest);
      var o :| IsNewest(rest, o);
      var best := if m[any].createdAt > m[o].createdAt then any else o;
      assert forall k :: k in m ==> k == any || k in rest;
      assert IsNewest(m, best);
    }
  }

  /** With distinct creation times there is only one. */
  ghost function OldestId(m: Entries): (id: string)
    requires m != map[]
    ensures IsOldest(m, id)
  {
    OldestExists(m);
    var id :| IsOldest(m, id);
    id
  }

  ghost function NewestId(m: Entries): (id: string)
    requires m != map[]
    ensures IsNewest(m, id)
  {
    NewestExists(m);
    var id :| IsNewest(m, id);
    id
  }

  /** evictOldestLocked */
  ghost function Evict(m: Entries): (r: Entries)
    ensures |r| == if m == map[] then 0 else |m| - 1
  {
    if m == map[] then m
    else
      assert (m - {OldestId(m)}).Keys == m.Keys - {OldestId(m)};
      m - {OldestId(m)}
  }

  lemma EvictIs(m: Entries, id: string)
    requires IsOldest(m, id) && DistinctTimes(m)
    ensures Evict(m) == m - {id}
  {
    assert id in m;
    assert m[OldestId(m)].createdAt == m[id].createdAt;
  }

  lemma SnapshotStep(m: Entries, id: string)
    requires IsNewest(m, id) && DistinctTimes(m)
    ensures Snapshot(m) == Snapshot(m - {id}) + [Record(id, m[id].createdAt, m[id].response)]
  {
    assert id in m;
    assert m[NewestId(m)].createdAt == m[id].createdAt;
  }

  /** storeLocked and storeLoaded on the map: make room, then write. */
  ghost function Insert(lim: Limits, m: Entries, id: string, e: Entry): Entries {
    (if |m| >= lim.maxSize then Evict(m) else m)[id := e]
  }

  /** One line of the log at load time `now`. */
  ghost function ReplayOne(lim: Limits, m: Entries, rec: Record, now: int): Entries {
    if rec.id == "" || rec.response == None then m
    else if Expired(lim, rec.createdAt, now) then m
    else if rec.id in m && rec.createdAt <= m[rec.id].createdAt then m
    else Insert(lim, m, rec.id, Entry(rec.response, rec.createdAt))
  }

  /** load */
  ghost function Replay(lim: Limits, log: seq<Record>, now: int): Entries {
    if log == [] then map[] else ReplayOne(lim, Replay(lim, log[..|log| - 1], now), log[|log| - 1], now)
  }

  lemma ReplaySnoc(lim: Limits, log: seq<Record>, rec: Record, now: int)
    ensures Replay(lim, log + [rec], now) == ReplayOne(lim, Replay(lim, log, now), rec, now)
  {
    assert (log + [rec])[..|log|] == log;
  }

  lemma {:induction false} ReplayAppend(lim: Limits, a: seq<Record>, b: seq<Record>, c: seq<Record>, now: int)
    requires Replay(lim, a, now) == Replay(lim, b, now)
    ensures Replay(lim, a + c, now) == Replay(lim, b + c, now)
    decreases |c|
  {
    hide ReplayOne;
    if c == [] {
      assert a + c == a && b + c == b;
    } else {
      var n := |c| - 1;
      ReplayAppend(lim, a, b, c[..n], now);
      assert a + c == a + c[..n] + [c[n]] && b + c == b + c[..n] + [c[n]];
      ReplaySnoc(lim, a + c[..n], c[n], now);
      ReplaySnoc(lim, b + c[..n], c[n], now);
    }
  }

  /** A record without an id or without a response changes no replay, wherever it stands in the log. */
  lemma UnloadableRecord(lim: Limits, before: seq<Record>, rec: Record, after: seq<Record>, now: int)
    requires rec.id == "" || rec.response == None
    ensures Replay(lim, before + [rec] + after, now) == Replay(lim, before + after, now)
  {
    ReplaySnoc(lim, before, rec, now);
    ReplayAppend(lim, before + [rec], before, after, now);
  }

  // ---- Expiry commutes with storing ----

  lemma ViewSmaller(lim: Limits, m: Entries, now: int)
    ensures View(lim, m, now).Keys <= m.Keys && |View(lim, m, now)| <= |m|
    ensures forall id :: id in m && id !in View(lim, m, now) ==> |View(lim, m, now)| < |m|
  {
    var v := View(lim, m, now);
    SubsetSize(v.Keys, m.Keys);
  }

  lemma {:induction false} SubsetSize(a: set<string>, b: set<string>)
    requires a <= b
    ensures |a| <= |b| && (a != b ==> |a| < |b|)
    decreases a
  {
    if a != {} {
      var x :| x in a;
      SubsetSize(a - {x}, b - {x});
    }
  }

  lemma ViewEvict(lim: Limits, m: Entries, now: int)
    requires lim.Valid() && DistinctTimes(m) && |m| == lim.maxSize
    ensures var v := View(lim, m, now);
      View(lim, Evict(m), now) == if |v| >= lim.maxSize then Evict(v) else v
  {
    var o, v := OldestId(m), View(lim, m, now);
    ViewSmaller(lim, m, now);
    if o in v {
      assert forall k :: k in m ==> k in v;
      assert v == m;
      ViewNewest(lim, m, o, now);
      AllFresh(lim, m - {o}, now);
    } else {
      ViewNewest(lim, m, o, now);
    }
  }

  lemma AllFresh(lim: Limits, m: Entries, now: int)
    requires forall k :: k in m ==> !Expired(lim, m[k].createdAt, now)
    ensures View(lim, m, now) == m
  {
  }

  /** The core of recovery: what a reader sees after a store depends only on what a reader saw before it. */
  lemma ViewInsert(lim: Limits, m: Entries, id: string, e: Entry, now: int)
    requires lim.Valid() && DistinctTimes(m) && |m| <= lim.maxSize
    requires forall k :: k in m ==> m[k].createdAt <= e.createdAt
    ensures View(lim, Insert(lim, m, id, e), now) ==
      if Expired(lim, e.createdAt, now) then View(lim, m, now) else Insert(lim, View(lim, m, now), id, e)
  {
    hide Evict, View;
    if Expired(lim, e.createdAt, now) {
      AllExpired(lim, m, now);
      AllExpired(lim, Insert(lim, m, id, e), now) by { InsertTimes(lim, m, id, e); }
    } else {
      var v := View(lim, m, now);
      ViewSmaller(lim, m, now);
      if |m| == lim.maxSize { ViewEvict(lim, m, now); }
      ViewUpdate(lim, if |m| >= lim.maxSize then Evict(m) else m, id, e, now);
    }
  }

  lemma AllExpired(lim: Limits, m: Entries, now: int)
    requires forall k :: k in m ==> Expired(lim, m[k].createdAt, now)
    ensures View(lim, m, now) == map[]
  {
  }

  lemma InsertTimes(lim: Limits, m: Entries, id: string, e: Entry)
    requires lim.Valid()
    ensures forall k :: k in Insert(lim, m, id, e) ==> k == id || (k in m && Insert(lim, m, id, e)[k] == m[k])
    ensures id in Insert(lim, m, id, e) && Insert(lim, m, id, e)[id] == e
  {
  }

  lemma ViewUpdate(lim: Limits, m: Entries, id: string, e: Entry, now: int)
    requires !Expired(lim, e.createdAt, now)
    ensures View(lim, m[id := e], now) == View(lim, m, now)[id := e]
  {
  }

  // ---- Compaction ----

  /** The records that compactLocked writes: all entries, by creation time. */
  ghost function Snapshot(m: Entries): seq<Record>
    decreases |m.Keys|
  {
    if m == map[] then []
    else
      var id := NewestId(m);
      assert (m - {id}).Keys == m.Keys - {id};
      Snapshot(m - {id}) + [Record(id, m[id].createdAt, m[id].response)]
  }

  /** Records of different ids carry different times. */
  predicate DistinctRecords(lines: seq<Record>) {
    forall i, j :: 0 <= i < |lines| && 0 <= j < |lines| && lines[i].id != lines[j].id ==>
      lines[i].createdAt != lines[j].createdAt
  }

  /** A snapshot holds the entries and nothing else. */
  lemma {:induction false} SnapshotRecords(m: Entries)
    ensures forall i :: 0 <= i < |Snapshot(m)| ==>
      Snapshot(m)[i].id in m && Snapshot(m)[i].createdAt == m[Snapshot(m)[i].id].createdAt
    decreases |m.Keys|
  {
    if m != map[] {
      var id := NewestId(m);
      assert (m - {id}).Keys == m.Keys - {id};
      SnapshotRecords(m - {id});
    }
  }

  predicate ByTime(lines: seq<Record>) {
    forall i, j :: 0 <= i < j < |lines| ==> lines[i].createdAt <= lines[j].createdAt
  }

  /** It holds each of them once, by creation time. */
  lemma {:induction false} SnapshotIs(m: Entries)
    ensures |Snapshot(m)| == |m| && ByTime(Snapshot(m))
    ensures forall id :: id in m ==> RecordOf(m, id) in Snapshot(m)
    decreases |m.Keys|
  {
    hide ByTime;
    if m == map[] {
      NothingByTime();
    } else {
      var id := NewestId(m);
      var rest := m - {id};
      assert rest.Keys == m.Keys - {id};
      SnapshotIs(rest);
      SnapshotRecords(rest);
      ByTimeSnoc(Snapshot(rest), RecordOf(m, id));
      forall k | k in m ensures RecordOf(m, k) in Snapshot(m) {
        if k != id { assert RecordOf(rest, k) == RecordOf(m, k); }
      }
    }
  }

  function RecordOf(m: Entries, id: string): Record
    requires id in m
  {
    Record(id, m[id].createdAt, m[id].response)
  }

  lemma NothingByTime()
    ensures ByTime([])
  {
  }

  lemma ByTimeSnoc(lines: seq<Record>, rec: Record)
    requires ByTime(lines) && forall i :: 0 <= i < |lines| ==> lines[i].createdAt <= rec.createdAt
    ensures ByTime(lines + [rec])
  {
  }

  predicate Storable(m: Entries) {
    "" !in m && forall id :: id in m ==> m[id].response.Some?
  }

  lemma {:induction false} SnapshotReplays(lim: Limits, m: Entries, now: int)
    requires lim.Valid() && Storable(m) && |m| <= lim.maxSize
    ensures Replay(lim, Snapshot(m), now) == View(lim, m, now)
    decreases |m.Keys|
  {
    hide View, Evict;
    if m == map[] {
      AllExpired(lim, m, now);
    } else {
      var id := NewestId(m);
      var rest := m - {id};
      assert rest.Keys == m.Keys - {id} && |rest.Keys| < |m.Keys|;
      SnapshotReplays(lim, rest, now);
      ReplaySnoc(lim, Snapshot(rest), Record(id, m[id].createdAt, m[id].response), now);
      ViewSmaller(lim, rest, now);
      ViewNewest(lim, m, id, now);
    }
  }

  lemma ViewNewest(lim: Limits, m: Entries, id: string, now: int)
    requires id in m
    ensures var rest := View(lim, m - {id}, now);
      id !in rest && View(lim, m, now) == if Expired(lim, m[id].createdAt, now) then rest else rest[id := m[id]]
  {
  }
}
