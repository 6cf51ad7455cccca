/** FileStore (store/file.go): the map, the log file and the eviction counter, updated in place. */
module FileStores {
  import opened StoreModel
  import opened Options
  import opened StoreRecovery

  /** Every entry comes from a line of the log. */
  ghost predicate FromLines(m: Entries, lines: seq<Record>) {
    forall id :: id in m ==>
      id != "" && exists i :: 0 <= i < |lines| && lines[i] == Record(id, m[id].createdAt, m[id].response)
  }

  lemma FromLinesDistinct(m: Entries, lines: seq<Record>)
    requires FromLines(m, lines) && DistinctRecords(lines)
    ensures DistinctTimes(m) && "" !in m
  {
    forall a, b | a in m && b in m && a != b ensures m[a].createdAt != m[b].createdAt {
      var i :| 0 <= i < |lines| && lines[i] == Record(a, m[a].createdAt, m[a].response);
      var j :| 0 <= j < |lines| && lines[j] == Record(b, m[b].createdAt, m[b].response);
      assert lines[i].id != lines[j].id;
    }
  }

  lemma ReplayFromLines(lim: Limits, m: Entries, lines: seq<Record>, i: nat, now: int)
    requires i < |lines| && FromLines(m, lines)
    ensures FromLines(ReplayOne(lim, m, lines[i], now), lines)
  {
    hide DistinctTimes;
    var n := ReplayOne(lim, m, lines[i], now);
    forall id | id in n
      ensures exists j :: 0 <= j < |lines| && lines[j] == Record(id, n[id].createdAt, n[id].response) && id != ""
    {
      if id !in m || n[id] != m[id] {
        assert lines[i] == Record(id, n[id].createdAt, n[id].response);
      }
    }
  }

  class FileStore {
    var entries: Entries
    var file: seq<Record>
    var compactN: nat
    const limits: Limits

    /** Entries have ids, and no two share a creation time. */
    ghost predicate Valid()
      reads this
    {
      limits.Valid() && DistinctTimes(entries) && "" !in entries
    }

    ghost function Current(): State
      reads this
    {
      State(entries, file, compactN)
    }

    /** NewFile and load at time `now`; lines that cannot be decoded are not among `lines`. */
    constructor (limits: Limits, lines: seq<Record>, now: int)
      requires limits.Valid() && DistinctRecords(lines)
      ensures this.limits == limits && Valid()
      ensures Current() == Reload(limits, lines, now)
    {
      this.limits := limits;
      entries := map[];
      file := lines;
      compactN := 0;
      new;
      var i := 0;
      while i < |lines|
        invariant 0 <= i <= |lines| && file == lines && compactN == 0
        invariant entries == Replay(limits, lines[..i], now) && FromLines(entries, lines)
      {
        var record := lines[i];
        ghost var m := entries;
        assert lines[..i + 1] == lines[..i] + [record];
        ReplaySnoc(limits, lines[..i], record, now);
        ReplayFromLines(limits, m, lines, i, now);
        FromLinesDistinct(m, lines);
        i := i + 1;
        if record.id == "" || record.response == None {
          continue;
        }
        if Expired(limits, record.createdAt, now) {
          continue;
        }
        if record.id in entries && record.createdAt <= entries[record.id].createdAt {
          continue;
        }
        StoreLoaded(record.id, record.response, record.createdAt);
      }
      assert lines[..i] == lines;
      FromLinesDistinct(entries, lines);
    }

    method StoreLoaded(id: string, response: Option<string>, createdAt: int)
      requires Valid()
      modifies this`entries
      ensures entries == Insert(limits, old(entries), id, Entry(response, createdAt))
    {
      if |entries| >= limits.maxSize {
        EvictOldestLocked();
      }
      entries := entries[id := Entry(response, createdAt)];
    }

    /** Scans the map in any order. The empty id stands for "none yet", so that an entry stored under it can confuse the
        scan; otherwise an oldest entry goes, and with distinct times that is the oldest. */
    method EvictOldestLocked()
      modifies this`entries
      ensures entries == old(entries) || exists o :: o in old(entries) && entries == old(entries) - {o}
      ensures "" !in old(entries) && old(entries) != map[] ==>
        exists o :: IsOldest(old(entries), o) && entries == old(entries) - {o}
      ensures "" !in old(entries) && DistinctTimes(old(entries)) ==> entries == Evict(old(entries))
    {
      hide DistinctTimes;
      var oldestID, oldestTime := "", 0;
      var rest := entries.Keys;
      while rest != {}
        invariant rest <= entries.Keys && entries == old(entries)
        invariant oldestID != "" ==> oldestID in entries && oldestTime == entries[oldestID].createdAt
        invariant "" !in entries ==> (oldestID == "" <==> rest == entries.Keys)
        invariant "" !in entries && oldestID != "" ==>
          forall k :: k in entries && k !in rest ==> oldestTime <= entries[k].createdAt
        decreases rest
      {
        var id :| id in rest;
        rest := rest - {id};
        if oldestID == "" || entries[id].createdAt < oldestTime {
          oldestID, oldestTime := id, entries[id].createdAt;
        }
      }
      if oldestID != "" {
        if "" !in entries {
          assert IsOldest(entries, oldestID);
          if DistinctTimes(entries) { EvictIs(entries, oldestID); }
        }
        entries := entries - {oldestID};
      }
    }

    method StoreLocked(id: string, response: Option<string>, createdAt: int, compactOk: bool)
      requires Valid() && id != ""
      requires forall k :: k in entries && k != id ==> entries[k].createdAt != createdAt
      modifies this
      ensures Valid()
      ensures Current() == StoreRecovery.StoreLocked(limits, old(Current()), id, Entry(response, createdAt), compactOk)
    {
      if |entries| >= limits.maxSize {
        EvictOldestLocked();
        compactN := compactN + 1;
      }
      entries := entries[id := Entry(response, createdAt)];
      if compactN >= limits.maxSize {
        CompactLocked(compactOk);
        compactN := 0;
      }
    }

    /** Store at time `now`; `compactOk` says whether a compaction that falls due succeeds. */
    method Store(id: string, response: Option<string>, now: int, compactOk: bool)
      requires Valid() && id != ""
      requires forall k :: k in entries && k != id ==> entries[k].createdAt != now
      modifies this
      ensures Valid()
      ensures Current() == Put(limits, old(Current()), id, response, now, compactOk)
    {
      StoreLocked(id, response, now, compactOk);
      file := file + [Record(id, entries[id].createdAt, response)];
    }

    method Get(id: string, now: int) returns (response: Option<string>)
      ensures response == StoreRecovery.Get(limits, entries, id, now)
      ensures response ==
        if id in entries && now - entries[id].createdAt <= limits.ttl then entries[id].response else None
    {
      if id !in entries || Expired(limits, entries[id].createdAt, now) {
        return None;
      }
      return entries[id].response;
    }

    /** One tick of the clean-up goroutine. */
    method Cleanup(now: int, compactOk: bool)
      requires Valid()
      modifies this
      ensures Valid()
      ensures Current() == Clean(limits, old(Current()), now, compactOk)
      ensures forall id ::
        id in entries <==> id in old(entries) && now - old(entries)[id].createdAt <= limits.ttl
    {
      var changed := false;
      var rest := entries.Keys;
      while rest != {}
        invariant rest <= entries.Keys && file == old(file) && compactN == old(compactN)
        invariant entries == map id | id in old(entries) &&
          (id in rest || !Expired(limits, old(entries)[id].createdAt, now)) :: old(entries)[id]
        invariant changed <==> entries != old(entries)
        decreases rest
      {
        var id :| id in rest;
        rest := rest - {id};
        if Expired(limits, entries[id].createdAt, now) {
          entries := entries - {id};
          changed := true;
        }
      }
      assert entries == View(limits, old(entries), now);
      if changed {
        CompactLocked(compactOk);
      }
    }

    method Close(compactOk: bool)
      requires Valid()
      modifies this
      ensures Valid()
      ensures Current() == Compact(old(Current()), compactOk)
    {
      CompactLocked(compactOk);
    }

    /** Writes all entries by creation time to a new file and renames it over the log. */
    method CompactLocked(ok: bool)
      requires DistinctTimes(entries)
      modifies this`file
      ensures Current() == Compact(old(Current()), ok)
    {
      if !ok {
        return;
      }
      file := SortedRecords(entries);
    }

    static method SortedRecords(m: Entries) returns (records: seq<Record>)
      requires DistinctTimes(m)
      ensures records == Snapshot(m)
    {
      records := [];
      var rest := m;
      while rest != map[]
        invariant rest.Keys <= m.Keys && (forall k :: k in rest ==> rest[k] == m[k]) && DistinctTimes(rest)
        invariant Snapshot(m) == Snapshot(rest) + records
        decreases rest.Keys
      {
        var id := Newest(rest);
        SnapshotStep(rest, id);
        ghost var front, rec := Snapshot(rest - {id}), Record(id, rest[id].createdAt, rest[id].response);
        assert front + [rec] + records == front + ([rec] + records);
        records := [Record(id, rest[id].createdAt, rest[id].response)] + records;
        rest := rest - {id};
      }
      assert [] + records == records;
    }

    static method Newest(m: Entries) returns (id: string)
      requires m != map[]
      ensures IsNewest(m, id)
    {
      id :| id in m;
      var rest := m.Keys - {id};
      while rest != {}
        invariant rest <= m.Keys && id in m
        invariant forall k :: k in m && k !in rest ==> m[k].createdAt <= m[id].createdAt
        decreases rest
      {
        var k :| k in rest;
        rest := rest - {k};
        if m[k].createdAt > m[id].createdAt {
          id := k;
        }
      }
    }
  }
}
