/** Histories of the durable store in which appends to the log fail as well. */
module StoreFaults {
  import opened StoreModel
  import opened StoreRecovery
  import opened Options

  /** A step as before, or a store whose append fails: memory has it, and the log only if a compaction falls due. */
  datatype Event =
    | Sane(step: Step)
    | Unwritten(id: string, response: Option<string>, t: int, compactOk: bool)

  ghost function After(lim: Limits, s: State, e: Event): State {
    match e
    case Sane(step) => Next(lim, s, step)
    case Unwritten(id, response, t, ok) => StoreLocked(lim, s, id, Entry(response, t), ok)
  }

  function ClockAfter(clock: int, e: Event): int {
    match e
    case Sane(step) => Clock(clock, step)
    case Unwritten(_, _, t, _) => t
  }

  predicate InTime(clock: int, e: Event) {
    match e
    case Sane(step) => Timely(clock, step)
    case Unwritten(id, response, t, _) => clock < t && id != "" && response.Some?
  }

  /** The step ends in a compaction that succeeds and takes all of memory over into the log. */
  ghost predicate Syncs(lim: Limits, s: State, e: Event) {
    match e
    case Sane(DoPut(_, _, _, ok)) => Compacts(lim, s, ok)
    case Sane(DoClean(t, ok)) => ok && View(lim, s.entries, t) != s.entries
    case Sane(DoClose(ok)) => ok
    case Sane(DoRestart(_)) => false
    case Sane(DoCrash(_, _, _, ok, point, _)) => !point.BeforeCompact? && Compacts(lim, s, ok)
    case Unwritten(_, _, _, ok) => Compacts(lim, s, ok)
  }

  /** What a plain in-memory store would hold that sees only what reaches the log: `m` before the event. A store that is
      written goes in; one that is not comes in with the next compaction, which takes over all of memory. */
  ghost function Written(lim: Limits, m: Entries, s: State, e: Event): Entries {
    var base := if Syncs(lim, s, e) then s.entries else m;
    match e
    case Sane(DoPut(id, response, t, _)) => Insert(lim, base, id, Entry(response, t))
    case Sane(DoCrash(id, response, t, ok, point, _)) =>
      if Survives(lim, s, ok, point) then Insert(lim, base, id, Entry(response, t)) else base
    case Unwritten(id, response, t, _) => if Syncs(lim, s, e) then Insert(lim, base, id, Entry(response, t)) else base
    case _ => base
  }

  /** Does memory still show what the log holds? Failed appends break that until a compaction, a restart or a crash. */
  ghost predicate Synced(lim: Limits, synced: bool, s: State, e: Event) {
    match e
    case Sane(DoRestart(_)) => true
    case Sane(DoCrash(_, _, _, _, _, _)) => true
    case Unwritten(_, _, _, _) => Syncs(lim, s, e)
    case _ => synced || Syncs(lim, s, e)
  }

  ghost function Play(lim: Limits, s: State, events: seq<Event>): State
    decreases events
  {
    if events == [] then s else Play(lim, After(lim, s, events[0]), events[1..])
  }

  ghost function WrittenBy(lim: Limits, m: Entries, s: State, events: seq<Event>): Entries
    decreases events
  {
    if events == [] then m
    else WrittenBy(lim, Written(lim, m, s, events[0]), After(lim, s, events[0]), events[1..])
  }

  ghost predicate SyncedBy(lim: Limits, synced: bool, s: State, events: seq<Event>)
    decreases events
  {
    if events == [] then synced
    else SyncedBy(lim, Synced(lim, synced, s, events[0]), After(lim, s, events[0]), events[1..])
  }

  function EndOf(clock: int, events: seq<Event>): int
    decreases events
  {
    if events == [] then clock else EndOf(ClockAfter(clock, events[0]), events[1..])
  }

  predicate AllInTime(clock: int, events: seq<Event>)
    decreases events
  {
    events == [] || (InTime(clock, events[0]) && AllInTime(ClockAfter(clock, events[0]), events[1..]))
  }

  // ---- The invariant ----

  /** Memory and the map `m` are in order, and the log recovers to `m`; if synced, no reader can tell them apart. */
  ghost predicate Backed(lim: Limits, s: State, m: Entries, synced: bool, clock: int) {
    Sound(lim, s.entries, clock) && Sound(lim, m, clock) && Durable(lim, m, s.log, clock) && Logged(s.log, clock) &&
    (synced ==> Alike(lim, s.entries, m, clock))
  }

  lemma AlikeSelf(lim: Limits, m: Entries, clock: int)
    ensures Alike(lim, m, m, clock)
  {
  }

  lemma AlikeLater(lim: Limits, a: Entries, b: Entries, clock: int, t: int)
    requires clock <= t
    ensures Alike(lim, a, b, clock) ==> Alike(lim, a, b, t)
  {
  }

  /** A successful compaction makes any log right. */
  lemma SnapshotBacks(lim: Limits, m: Entries, n: nat, synced: bool, clock: int)
    requires Sound(lim, m, clock)
    ensures Backed(lim, State(m, Snapshot(m), n), m, synced, clock)
  {
    hide Sound, Durable, Alike, Logged;
    CompactIsDurable(lim, m, clock);
    LoggedSnapshot(lim, m, clock);
    AlikeSelf(lim, m, clock);
  }

  /** storeLocked, and the append behind it. */
  lemma PutBacked(lim: Limits, s: State, m: Entries, synced: bool, clock: int, id: string, response: Option<string>,
                  t: int, ok: bool)
    requires Backed(lim, s, m, synced, clock) && clock < t && id != "" && response.Some?
    ensures var e := Entry(response, t);
      var (locked, put, both) :=
        (StoreLocked(lim, s, id, e, ok), Put(lim, s, id, response, t, ok), Compacts(lim, s, ok));
      Backed(lim, locked, if both then Insert(lim, s.entries, id, e) else m, both, t) &&
      Backed(lim, put, Insert(lim, if both then s.entries else m, id, e), synced || both, t)
  {
    hide Insert, View, Replay, Snapshot, Sound, Durable, Logged, Alike, Evict;
    var (e, rec) := (Entry(response, t), Record(id, t, response));
    var stored := Insert(lim, s.entries, id, e);
    SoundFacts(lim, s.entries, clock);
    SoundInsert(lim, s.entries, id, e, clock);
    SoundInsert(lim, m, id, e, clock);
    SoundLater(lim, m, clock, t);
    if Compacts(lim, s, ok) {
      CompactIsDurable(lim, stored, t);
      LoggedSnapshot(lim, stored, t);
      AlikeSelf(lim, stored, t);
      InsertTimes(lim, s.entries, id, e);
      RepeatedRecord(lim, stored, Snapshot(stored), id, t);
      LoggedAppend(Snapshot(stored), rec);
    } else {
      DurableLater(lim, m, s.log, clock, t);
      LoggedLater(s.log, clock, t);
      NoneAt(s.log, clock, t);
      PutDurable(lim, m, s.log, id, e, clock);
      LoggedAppend(s.log, rec);
      if synced { PutAlike(lim, s.entries, m, id, e, clock); }
    }
  }

  lemma NoneAt(log: seq<Record>, clock: int, t: int)
    requires Logged(log, clock) && clock < t
    ensures forall i :: 0 <= i < |log| ==> log[i].createdAt != t
  {
  }

  /** A new process on a log that is right. */
  lemma ReloadBacked(lim: Limits, m: Entries, log: seq<Record>, clock: int, t: int)
    requires Sound(lim, m, clock) && Durable(lim, m, log, clock) && Logged(log, clock) && clock <= t
    ensures Backed(lim, Reload(lim, log, t), m, true, t)
  {
    hide View, Replay, Sound, Alike, Logged;
    ReloadKeeps(lim, m, log, clock, t);
    SoundLater(lim, m, clock, t);
    LoggedLater(log, clock, t);
    AlikeSelf(lim, m, clock);
    ViewAlike(lim, m, m, clock, t);
  }

  lemma CleanBacked(lim: Limits, s: State, m: Entries, synced: bool, clock: int, t: int, ok: bool)
    requires Backed(lim, s, m, synced, clock) && clock <= t
    ensures var syncs := ok && View(lim, s.entries, t) != s.entries;
      Backed(lim, Clean(lim, s, t, ok), if syncs then s.entries else m, synced || syncs, t)
  {
    hide View, Replay, Snapshot, Sound, Durable, Logged, Alike;
    var kept := View(lim, s.entries, t);
    SoundView(lim, s.entries, clock, t);
    SoundLater(lim, m, clock, t);
    DurableLater(lim, m, s.log, clock, t);
    LoggedLater(s.log, clock, t);
    CompactIsDurable(lim, kept, t);
    LoggedSnapshot(lim, kept, t);
    AlikeSelf(lim, s.entries, clock);
    ViewAlike(lim, s.entries, s.entries, clock, t);
    DurableAlike(lim, kept, s.entries, Snapshot(kept), t);
    if synced { ViewAlike(lim, s.entries, m, clock, t); }
  }

  lemma DurableAlike(lim: Limits, a: Entries, b: Entries, log: seq<Record>, clock: int)
    requires Durable(lim, a, log, clock) && Alike(lim, a, b, clock)
    ensures Durable(lim, b, log, clock)
  {
    hide View, Replay;
  }

  lemma CrashBacked(lim: Limits, s: State, m: Entries, synced: bool, clock: int, step: Step)
    requires Backed(lim, s, m, synced, clock) && Timely(clock, step) && step.DoCrash?
    ensures Backed(lim, Next(lim, s, step), Written(lim, m, s, Sane(step)), true, Clock(clock, step))
  {
    hide Insert, View, Replay, Snapshot, Sound, Durable, Logged, Alike, Reload, Put, StoreLocked;
    var DoCrash(id, response, t, ok, point, restart) := step;
    PutBacked(lim, s, m, synced, clock, id, response, t, ok);
    SoundLater(lim, m, clock, t);
    DurableLater(lim, m, s.log, clock, t);
    LoggedLater(s.log, clock, t);
    ReloadBacked(lim, Written(lim, m, s, Sane(step)), CrashLog(lim, s, id, response, t, ok, point), t, restart);
  }

  lemma EventBacked(lim: Limits, s: State, m: Entries, synced: bool, clock: int, e: Event)
    requires Backed(lim, s, m, synced, clock) && InTime(clock, e)
    ensures Backed(lim, After(lim, s, e), Written(lim, m, s, e), Synced(lim, synced, s, e), ClockAfter(clock, e))
  {
    hide Backed, Insert, View, Replay, Snapshot, Sound, Durable, Logged, Alike, Reload, Put, StoreLocked, Clean,
      Compacts;
    match e {
      case Sane(DoPut(id, response, t, ok)) => PutBacked(lim, s, m, synced, clock, id, response, t, ok);
      case Sane(DoClean(t, ok)) => CleanBacked(lim, s, m, synced, clock, t, ok);
      case Sane(DoClose(ok)) => CloseBacked(lim, s, m, synced, clock, ok);
      case Sane(DoRestart(t)) => RestartBacked(lim, s, m, synced, clock, t);
      case Sane(DoCrash(_, _, _, _, _, _)) => CrashBacked(lim, s, m, synced, clock, e.step);
      case Unwritten(id, response, t, ok) => PutBacked(lim, s, m, synced, clock, id, response, t, ok);
    }
  }

  lemma CloseBacked(lim: Limits, s: State, m: Entries, synced: bool, clock: int, ok: bool)
    requires Backed(lim, s, m, synced, clock)
    ensures Backed(lim, Compact(s, ok), if ok then s.entries else m, synced || ok, clock)
  {
    hide View, Replay, Snapshot, Sound, Durable, Logged, Alike;
    SnapshotBacks(lim, s.entries, s.compactN, true, clock);
  }

  lemma RestartBacked(lim: Limits, s: State, m: Entries, synced: bool, clock: int, t: int)
    requires Backed(lim, s, m, synced, clock) && clock <= t
    ensures Backed(lim, Reload(lim, s.log, t), m, true, t)
  {
    hide View, Replay, Sound, Durable, Logged, Alike, Reload;
    ReloadBacked(lim, m, s.log, clock, t);
  }

  lemma {:induction false} PlayBacked(lim: Limits, s: State, m: Entries, synced: bool, clock: int, events: seq<Event>)
    requires Backed(lim, s, m, synced, clock) && AllInTime(clock, events)
    ensures Backed(lim, Play(lim, s, events), WrittenBy(lim, m, s, events), SyncedBy(lim, synced, s, events),
                   EndOf(clock, events))
    decreases events
  {
    hide Backed, After, Written, Synced, InTime;
    if events != [] {
      var e := events[0];
      EventBacked(lim, s, m, synced, clock, e);
      PlayBacked(lim, After(lim, s, e), Written(lim, m, s, e), Synced(lim, synced, s, e), ClockAfter(clock, e),
                 events[1..]);
    }
  }

  const FRESH := State(map[], [], 0)

  lemma FreshBacked(lim: Limits, clock: int)
    requires lim.Valid()
    ensures Backed(lim, FRESH, map[], true, clock)
  {
    hide View, Replay;
    EmptyKeeps(lim, clock);
  }

  /** Main result. After any history of stores, clean-ups, compactions, restarts and crashes in which appends fail
      anywhere, a process started on the file at any later time shows exactly what a plain in-memory store shows that
      saw the written stores, and took over all of memory at each successful compaction; and the log is one that can
      be loaded. */
  lemma FailedAppends(lim: Limits, start: int, events: seq<Event>, now: int)
    requires lim.Valid() && AllInTime(start, events) && EndOf(start, events) <= now
    ensures var s := Play(lim, FRESH, events);
      Reload(lim, s.log, now).entries == View(lim, WrittenBy(lim, map[], FRESH, events), now) && DistinctRecords(s.log)
  {
    hide Play, WrittenBy, SyncedBy, AllInTime, EndOf, View, Replay, Sound, Alike;
    FreshBacked(lim, start);
    PlayBacked(lim, FRESH, map[], true, start, events);
  }

  /** And what memory shows, if no append has failed since the last successful compaction, restart or crash. */
  lemma SyncedRecovers(lim: Limits, start: int, events: seq<Event>, now: int)
    requires lim.Valid() && AllInTime(start, events) && EndOf(start, events) <= now
    requires SyncedBy(lim, true, FRESH, events)
    ensures var s := Play(lim, FRESH, events); Reload(lim, s.log, now).entries == View(lim, s.entries, now)
  {
    hide Play, WrittenBy, SyncedBy, AllInTime, EndOf, View, Replay, Sound;
    FreshBacked(lim, start);
    PlayBacked(lim, FRESH, map[], true, start, events);
  }

  /** A store whose append fails: memory shows it at once, a restart does exactly if a compaction fell due and
      succeeded, or the written map shows the same response under the id, or it has expired. */
  lemma UnwrittenLookup(lim: Limits, s: State, m: Entries, synced: bool, clock: int, id: string, response: string,
                        t: int, ok: bool, now: int)
    requires Backed(lim, s, m, synced, clock) && clock < t <= now && id != "" && !Expired(lim, t, now)
    ensures var d := After(lim, s, Unwritten(id, Some(response), t, ok));
      Get(lim, d.entries, id, now) == Some(response) &&
      (Get(lim, Reload(lim, d.log, now).entries, id, now) == Some(response) <==>
         Compacts(lim, s, ok) || Get(lim, m, id, now) == Some(response))
  {
    hide Insert, View, Replay, Snapshot, Sound, Logged, Alike, StoreLocked, Compacts;
    var e := Entry(Some(response), t);
    var d := After(lim, s, Unwritten(id, Some(response), t, ok));
    var w := if Compacts(lim, s, ok) then Insert(lim, s.entries, id, e) else m;
    PutBacked(lim, s, m, synced, clock, id, Some(response), t, ok);
    SoundFacts(lim, s.entries, clock);
    InsertTimes(lim, s.entries, id, e);
    LockedEntries(lim, s, id, e, ok);
    assert Reload(lim, d.log, now).entries == View(lim, w, now);
    GetIsView(lim, w, id, now);
    GetOfView(lim, w, id, now);
  }

  lemma LockedEntries(lim: Limits, s: State, id: string, e: Entry, ok: bool)
    ensures StoreLocked(lim, s, id, e, ok).entries == Insert(lim, s.entries, id, e)
  {
    hide Insert, Snapshot;
  }

  lemma GetOfView(lim: Limits, m: Entries, id: string, now: int)
    ensures Get(lim, View(lim, m, now), id, now) == Get(lim, m, id, now)
  {
  }
}
