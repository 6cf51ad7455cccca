/** Whole histories of the durable store: stores, clean-ups, compactions, restarts and crashes in any order. */
module StoreRecovery {
  import opened StoreModel
  import opened Options

  /** Memory, the log file, and the counter of evictions since the last compaction. */
  datatype State = State(entries: Entries, log: seq<Record>, compactN: nat)

  /** compactLocked: rewrites the log, or fails and leaves it alone. */
  ghost function Compact(s: State, ok: bool): State {
    if ok then s.(log := Snapshot(s.entries)) else s
  }

  /** storeLocked */
  ghost function StoreLocked(lim: Limits, s: State, id: string, e: Entry, compactOk: bool): State {
    var n := if |s.entries| >= lim.maxSize then s.compactN + 1 else s.compactN;
    var stored := State(Insert(lim, s.entries, id, e), s.log, n);
    if n >= lim.maxSize then Compact(stored, compactOk).(compactN := 0) else stored
  }

  /** Store */
  ghost function Put(lim: Limits, s: State, id: string, response: Option<string>, t: int, compactOk: bool): State {
    var stored := StoreLocked(lim, s, id, Entry(response, t), compactOk);
    stored.(log := stored.log + [Record(id, t, response)])
  }

  /** One tick of the background clean-up. */
  ghost function Clean(lim: Limits, s: State, t: int, compactOk: bool): State {
    var kept := View(lim, s.entries, t);
    if kept == s.entries then s else Compact(s.(entries := kept), compactOk)
  }

  /** A new process on the same file. */
  ghost function Reload(lim: Limits, log: seq<Record>, t: int): State {
    State(Replay(lim, log, t), log, 0)
  }

  /** Where a crash inside Store hits: before its compaction, between compaction and append, after the append. */
  datatype CrashPoint = BeforeCompact | BeforeAppend | AfterAppend

  ghost function CrashLog(lim: Limits, s: State, id: string, response: Option<string>, t: int, compactOk: bool,
                          point: CrashPoint): seq<Record> {
    match point
    case BeforeCompact => s.log
    case BeforeAppend => StoreLocked(lim, s, id, Entry(response, t), compactOk).log
    case AfterAppend => Put(lim, s, id, response, t, compactOk).log
  }

  /** Does the interrupted store survive? */
  ghost predicate Survives(lim: Limits, s: State, compactOk: bool, point: CrashPoint) {
    match point
    case BeforeCompact => false
    case BeforeAppend => compactOk && s.compactN + (if |s.entries| >= lim.maxSize then 1 else 0) >= lim.maxSize
    case AfterAppend => true
  }

  datatype Step =
    | DoPut(id: string, response: Option<string>, t: int, compactOk: bool)
    | DoClean(t: int, compactOk: bool)
    | DoClose(compactOk: bool)
    | DoRestart(t: int)
    | DoCrash(id: string, response: Option<string>, t: int, compactOk: bool, point: CrashPoint, restart: int)

  ghost function Next(lim: Limits, s: State, step: Step): State {
    match step
    case DoPut(id, response, t, ok) => Put(lim, s, id, response, t, ok)
    case DoClean(t, ok) => Clean(lim, s, t, ok)
    case DoClose(ok) => Compact(s, ok)
    case DoRestart(t) => Reload(lim, s.log, t)
    case DoCrash(id, response, t, ok, point, restart) =>
      Reload(lim, CrashLog(lim, s, id, response, t, ok, point), restart)
  }

  function Clock(clock: int, step: Step): int {
    match step
    case DoPut(_, _, t, _) => t
    case DoClean(t, _) => t
    case DoClose(_) => clock
    case DoRestart(t) => t
    case DoCrash(_, _, _, _, _, restart) => restart
  }

  /** Stores carry an id, a response and a time later than everything before; the clock never runs back. */
  predicate Timely(clock: int, step: Step) {
    match step
    case DoPut(id, response, t, _) => clock < t && id != "" && response.Some?
    case DoClean(t, _) => clock <= t
    case DoClose(_) => true
    case DoRestart(t) => clock <= t
    case DoCrash(id, response, t, _, _, restart) => clock < t <= restart && id != "" && response.Some?
  }

  /** Memory is in order. */
  ghost predicate Sound(lim: Limits, m: Entries, clock: int) {
    lim.Valid() && |m| <= lim.maxSize && DistinctTimes(m) && Storable(m) &&
    forall k :: k in m ==> m[k].createdAt <= clock
  }

  /** Replaying the log at any later time gives what memory shows at that time. */
  ghost predicate Durable(lim: Limits, m: Entries, log: seq<Record>, clock: int) {
    forall now :: clock <= now ==> Replay(lim, log, now) == View(lim, m, now)
  }

  /** The log is one that NewFile can load: no two ids share a time, and nothing is later than `clock`. */
  predicate Logged(log: seq<Record>, clock: int) {
    DistinctRecords(log) && forall i :: 0 <= i < |log| ==> log[i].createdAt <= clock
  }

  ghost predicate Inv(lim: Limits, s: State, clock: int) {
    Sound(lim, s.entries, clock) && Durable(lim, s.entries, s.log, clock) && Logged(s.log, clock)
  }

  lemma LoggedLater(log: seq<Record>, clock: int, t: int)
    requires Logged(log, clock) && clock <= t
    ensures Logged(log, t)
  {
  }

  lemma LoggedAppend(log: seq<Record>, rec: Record)
    requires Logged(log, rec.createdAt)
    requires forall i :: 0 <= i < |log| && log[i].createdAt == rec.createdAt ==> log[i].id == rec.id
    ensures Logged(log + [rec], rec.createdAt)
  {
  }

  lemma LoggedSnapshot(lim: Limits, m: Entries, clock: int)
    requires Sound(lim, m, clock)
    ensures Logged(Snapshot(m), clock)
    ensures forall i, id :: 0 <= i < |Snapshot(m)| && id in m && Snapshot(m)[i].createdAt == m[id].createdAt ==>
      Snapshot(m)[i].id == id
  {
    hide Snapshot;
    SnapshotRecords(m);
  }

  lemma SoundInsert(lim: Limits, m: Entries, id: string, e: Entry, clock: int)
    requires Sound(lim, m, clock) && clock < e.createdAt && id != "" && e.response.Some?
    ensures Sound(lim, Insert(lim, m, id, e), e.createdAt)
  {
    UpdateSize(m, id, e);
    UpdateSize(Evict(m), id, e);
    InsertTimes(lim, m, id, e);
    InOrder(lim, m, Insert(lim, m, id, e), id, e, clock);
  }

  lemma UpdateSize(m: Entries, id: string, e: Entry)
    ensures |m[id := e]| <= |m| + 1
  {
    assert m[id := e].Keys == m.Keys + {id};
  }

  lemma InOrder(lim: Limits, m: Entries, n: Entries, id: string, e: Entry, clock: int)
    requires Sound(lim, m, clock) && clock < e.createdAt && id != "" && e.response.Some? && |n| <= lim.maxSize
    requires forall k :: k in n ==> n[k] == if k == id then e else if k in m then m[k] else e
    requires forall k :: k in n ==> k == id || k in m
    ensures Sound(lim, n, e.createdAt)
  {
  }

  /** One store: seen at any later time, memory moves as a store into what was visible. */
  lemma PutView(lim: Limits, m: Entries, id: string, e: Entry, clock: int, now: int)
    requires Sound(lim, m, clock) && clock <= e.createdAt && (id in m ==> m[id].createdAt < e.createdAt)
    requires id != "" && e.response.Some?
    ensures View(lim, Insert(lim, m, id, e), now) ==
      ReplayOne(lim, View(lim, m, now), Record(id, e.createdAt, e.response), now)
  {
    hide View, Insert;
    ViewInsert(lim, m, id, e, now);
    ViewIsPart(lim, m, now);
  }

  lemma ViewIsPart(lim: Limits, m: Entries, now: int)
    ensures forall k :: k in View(lim, m, now) ==> k in m && View(lim, m, now)[k] == m[k]
  {
  }

  lemma CompactIsDurable(lim: Limits, m: Entries, clock: int)
    requires Sound(lim, m, clock)
    ensures Durable(lim, m, Snapshot(m), clock)
  {
    forall now | clock <= now ensures Replay(lim, Snapshot(m), now) == View(lim, m, now) {
      SnapshotReplays(lim, m, now);
    }
  }

  /** A successful compaction makes the log right again, whatever was in it before. */
  lemma CompactionHeals(lim: Limits, s: State, clock: int)
    requires Sound(lim, s.entries, clock)
    ensures Inv(lim, Compact(s, true), clock)
  {
    CompactIsDurable(lim, s.entries, clock);
    LoggedSnapshot(lim, s.entries, clock);
  }

  /** The record that Store appends right after a compaction that already wrote it changes nothing. */
  lemma RepeatedRecord(lim: Limits, m: Entries, log: seq<Record>, id: string, clock: int)
    requires Sound(lim, m, clock) && Durable(lim, m, log, clock) && id in m
    ensures Durable(lim, m, log + [Record(id, m[id].createdAt, m[id].response)], clock)
  {
    var rec := Record(id, m[id].createdAt, m[id].response);
    forall now | clock <= now ensures Replay(lim, log + [rec], now) == View(lim, m, now) {
      ReplaySnoc(lim, log, rec, now);
    }
  }

  lemma PutDurable(lim: Limits, m: Entries, log: seq<Record>, id: string, e: Entry, clock: int)
    requires Sound(lim, m, clock) && Durable(lim, m, log, clock) && clock < e.createdAt && id != "" && e.response.Some?
    ensures Durable(lim, Insert(lim, m, id, e), log + [Record(id, e.createdAt, e.response)], e.createdAt)
  {
    hide Insert, View, ReplayOne;
    var rec := Record(id, e.createdAt, e.response);
    forall now | e.createdAt <= now
      ensures Replay(lim, log + [rec], now) == View(lim, Insert(lim, m, id, e), now)
    {
      ReplaySnoc(lim, log, rec, now);
      PutView(lim, m, id, e, clock, now);
    }
  }

  lemma PutKeeps(lim: Limits, s: State, clock: int, id: string, response: Option<string>, t: int, ok: bool)
    requires Inv(lim, s, clock) && clock < t && id != "" && response.Some?
    ensures Inv(lim, Put(lim, s, id, response, t, ok), t)
  {
    hide Insert, View, Replay, Snapshot, Durable, Sound, Logged;
    var e := Entry(response, t);
    var m := Insert(lim, s.entries, id, e);
    PutLogged(lim, s, clock, id, response, t, ok);
    SoundInsert(lim, s.entries, id, e, clock);
    PutDurable(lim, s.entries, s.log, id, e, clock);
    CompactIsDurable(lim, m, t);
    InsertTimes(lim, s.entries, id, e) by { assert lim.Valid() by { SoundLimits(lim, s.entries, clock); } }
    RepeatedRecord(lim, m, Snapshot(m), id, t);
  }

  lemma PutLogged(lim: Limits, s: State, clock: int, id: string, response: Option<string>, t: int, ok: bool)
    requires Inv(lim, s, clock) && clock < t && id != "" && response.Some?
    ensures Logged(StoreLocked(lim, s, id, Entry(response, t), ok).log, t)
    ensures Logged(Put(lim, s, id, response, t, ok).log, t)
  {
    hide Insert, View, Replay, Snapshot, Durable, Sound;
    var (e, rec) := (Entry(response, t), Record(id, t, response));
    var m := Insert(lim, s.entries, id, e);
    SoundInsert(lim, s.entries, id, e, clock);
    assert lim.Valid() by { SoundLimits(lim, s.entries, clock); }
    InsertTimes(lim, s.entries, id, e);
    LoggedSnapshot(lim, m, t);
    LoggedAppend(Snapshot(m), rec);
    LoggedLater(s.log, clock, t);
    LoggedAppend(s.log, rec);
  }

  lemma SoundLimits(lim: Limits, m: Entries, clock: int)
    requires Sound(lim, m, clock)
    ensures lim.Valid()
  {
  }

  lemma ViewOfView(lim: Limits, m: Entries, t: int, now: int)
    requires t <= now
    ensures View(lim, View(lim, m, t), now) == View(lim, m, now)
  {
  }

  lemma SoundView(lim: Limits, m: Entries, clock: int, t: int)
    requires Sound(lim, m, clock) && clock <= t
    ensures Sound(lim, View(lim, m, t), t) && Sound(lim, m, t)
  {
    ViewSmaller(lim, m, t);
  }

  lemma CleanKeeps(lim: Limits, s: State, clock: int, t: int, ok: bool)
    requires Inv(lim, s, clock) && clock <= t
    ensures Inv(lim, Clean(lim, s, t, ok), t)
  {
    hide View, Replay, Snapshot;
    var kept := View(lim, s.entries, t);
    SoundView(lim, s.entries, clock, t);
    CompactIsDurable(lim, kept, t);
    LoggedSnapshot(lim, kept, t);
    forall now | t <= now ensures Replay(lim, s.log, now) == View(lim, kept, now) {
      ViewOfView(lim, s.entries, t, now);
    }
  }

  lemma ReloadKeeps(lim: Limits, m: Entries, log: seq<Record>, clock: int, t: int)
    requires Sound(lim, m, clock) && Durable(lim, m, log, clock) && Logged(log, clock) && clock <= t
    ensures Inv(lim, Reload(lim, log, t), t)
    ensures Reload(lim, log, t).entries == View(lim, m, t)
  {
    hide View, Replay;
    SoundView(lim, m, clock, t);
    forall now | t <= now ensures Replay(lim, log, now) == View(lim, View(lim, m, t), now) {
      ViewOfView(lim, m, t, now);
    }
  }

  /** Main result on crashes: whatever point of Store a crash hits, the file recovers to the state before that store
      or to the state after it, and which of the two depends only on whether the record reached the file. */
  lemma CrashRecovers(lim: Limits, s: State, clock: int, id: string, response: Option<string>, t: int, ok: bool,
                      point: CrashPoint)
    requires Inv(lim, s, clock) && clock < t && id != "" && response.Some?
    ensures var after := Put(lim, s, id, response, t, ok).entries;
      var survivor := if Survives(lim, s, ok, point) then after else s.entries;
      Sound(lim, survivor, t) && Durable(lim, survivor, CrashLog(lim, s, id, response, t, ok, point), t)
    ensures Logged(CrashLog(lim, s, id, response, t, ok, point), t)
  {
    hide View, Replay, Snapshot, Insert, Sound, Durable, Logged;
    PutLogged(lim, s, clock, id, response, t, ok);
    LoggedLater(s.log, clock, t);
    PutKeeps(lim, s, clock, id, response, t, ok);
    SoundLater(lim, s.entries, clock, t);
    DurableLater(lim, s.entries, s.log, clock, t);
    CompactIsDurable(lim, Put(lim, s, id, response, t, ok).entries, t);
  }

  lemma DurableLater(lim: Limits, m: Entries, log: seq<Record>, clock: int, t: int)
    requires Durable(lim, m, log, clock) && clock <= t
    ensures Durable(lim, m, log, t)
  {
  }

  lemma SoundLater(lim: Limits, m: Entries, clock: int, t: int)
    requires Sound(lim, m, clock) && clock <= t
    ensures Sound(lim, m, t)
  {
  }

  /** What a plain in-memory store would hold after the same step; restarts, clean-ups and compactions do nothing
      there. */
  ghost function Ideal(lim: Limits, m: Entries, s: State, step: Step): Entries {
    match step
    case DoPut(id, response, t, _) => Insert(lim, m, id, Entry(response, t))
    case DoCrash(id, response, t, ok, point, _) =>
      if Survives(lim, s, ok, point) then Insert(lim, m, id, Entry(response, t)) else m
    case _ => m
  }

  lemma StepKeeps(lim: Limits, s: State, clock: int, step: Step)
    requires Inv(lim, s, clock) && Timely(clock, step)
    ensures Inv(lim, Next(lim, s, step), Clock(clock, step))
  {
    hide View, Replay, Snapshot, Insert, Sound, Durable, Logged, CrashLog, Survives, Put, Clean, Reload;
    match step {
      case DoPut(id, response, t, ok) => PutKeeps(lim, s, clock, id, response, t, ok);
      case DoClean(t, ok) => CleanKeeps(lim, s, clock, t, ok);
      case DoClose(ok) => if ok { CompactionHeals(lim, s, clock); }
      case DoRestart(t) => ReloadKeeps(lim, s.entries, s.log, clock, t);
      case DoCrash(id, response, t, ok, point, restart) =>
        CrashRecovers(lim, s, clock, id, response, t, ok, point);
        var after := Put(lim, s, id, response, t, ok).entries;
        var survivor := if Survives(lim, s, ok, point) then after else s.entries;
        ReloadKeeps(lim, survivor, CrashLog(lim, s, id, response, t, ok, point), t, restart);
    }
  }

  ghost function Run(lim: Limits, s: State, steps: seq<Step>): State
    decreases steps
  {
    if steps == [] then s else Run(lim, Next(lim, s, steps[0]), steps[1..])
  }

  ghost function IdealRun(lim: Limits, m: Entries, s: State, steps: seq<Step>): Entries
    decreases steps
  {
    if steps == [] then m
    else IdealRun(lim, Ideal(lim, m, s, steps[0]), Next(lim, s, steps[0]), steps[1..])
  }

  function EndClock(clock: int, steps: seq<Step>): int
    decreases steps
  {
    if steps == [] then clock else EndClock(Clock(clock, steps[0]), steps[1..])
  }

  predicate AllTimely(clock: int, steps: seq<Step>)
    decreases steps
  {
    steps == [] || (Timely(clock, steps[0]) && AllTimely(Clock(clock, steps[0]), steps[1..]))
  }

  lemma {:induction false} RunKeeps(lim: Limits, s: State, clock: int, steps: seq<Step>)
    requires Inv(lim, s, clock) && AllTimely(clock, steps)
    ensures Inv(lim, Run(lim, s, steps), EndClock(clock, steps))
    decreases steps
  {
    hide Inv, Next, Timely;
    if steps != [] {
      StepKeeps(lim, s, clock, steps[0]);
      RunKeeps(lim, Next(lim, s, steps[0]), Clock(clock, steps[0]), steps[1..]);
    }
  }

  lemma EmptyKeeps(lim: Limits, clock: int)
    requires lim.Valid()
    ensures Inv(lim, State(map[], [], 0), clock)
  {
    forall now | clock <= now ensures Replay(lim, [], now) == View(lim, map[], now) {
      AllExpired(lim, map[], now);
    }
  }

  /** Main result. After any history of stores, clean-ups, compactions that work or fail, restarts and crashes,
      with increasing store times, a process started on the file at any later time shows what memory shows. */
  lemma Recovery(lim: Limits, start: int, steps: seq<Step>, now: int)
    requires lim.Valid() && AllTimely(start, steps) && EndClock(start, steps) <= now
    ensures var s := Run(lim, State(map[], [], 0), steps);
      Reload(lim, s.log, now).entries == View(lim, s.entries, now)
  {
    hide Run, AllTimely, EndClock, View, Replay, Sound;
    EmptyKeeps(lim, start);
    RunKeeps(lim, State(map[], [], 0), start, steps);
  }

  /** So each restart in such a history finds a log that the class can load. */
  lemma LogsLoad(lim: Limits, start: int, steps: seq<Step>)
    requires lim.Valid() && AllTimely(start, steps)
    ensures DistinctRecords(Run(lim, State(map[], [], 0), steps).log)
  {
    hide Run, AllTimely, EndClock, View, Replay, Sound, Durable;
    EmptyKeeps(lim, start);
    RunKeeps(lim, State(map[], [], 0), start, steps);
  }

  // ---- Against the plain in-memory store ----

  /** Two maps that no reader can tell apart from `clock` on. */
  ghost predicate Alike(lim: Limits, a: Entries, b: Entries, clock: int) {
    forall now :: clock <= now ==> View(lim, a, now) == View(lim, b, now)
  }

  lemma PutAlike(lim: Limits, a: Entries, b: Entries, id: string, e: Entry, clock: int)
    requires Sound(lim, a, clock) && Sound(lim, b, clock) && Alike(lim, a, b, clock)
    requires clock < e.createdAt && id != "" && e.response.Some?
    ensures Alike(lim, Insert(lim, a, id, e), Insert(lim, b, id, e), e.createdAt)
  {
    hide View, Insert, ReplayOne, Sound;
    forall now | e.createdAt <= now
      ensures View(lim, Insert(lim, a, id, e), now) == View(lim, Insert(lim, b, id, e), now)
    {
      SoundFacts(lim, a, clock);
      SoundFacts(lim, b, clock);
      PutView(lim, a, id, e, clock, now);
      PutView(lim, b, id, e, clock, now);
    }
  }

  /** `n` shows at `t` and later what `m` shows. */
  lemma ViewAlike(lim: Limits, m: Entries, b: Entries, clock: int, t: int)
    requires Alike(lim, m, b, clock) && clock <= t
    ensures Alike(lim, View(lim, m, t), b, t) && Alike(lim, m, b, t)
  {
    hide View;
    forall now | t <= now ensures View(lim, View(lim, m, t), now) == View(lim, b, now) {
      ViewOfView(lim, m, t, now);
    }
  }

  lemma StepAlike(lim: Limits, s: State, b: Entries, clock: int, step: Step)
    requires Inv(lim, s, clock) && Sound(lim, b, clock) && Alike(lim, s.entries, b, clock) && Timely(clock, step)
    ensures Alike(lim, Next(lim, s, step).entries, Ideal(lim, b, s, step), Clock(clock, step))
    ensures Sound(lim, Ideal(lim, b, s, step), Clock(clock, step))
  {
    hide View, Replay, Snapshot, Insert, Sound, Durable, Logged, CrashLog, Survives, Alike;
    match step {
      case DoPut(id, response, t, ok) =>
        PutAlike(lim, s.entries, b, id, Entry(response, t), clock);
        SoundInsert(lim, b, id, Entry(response, t), clock);
      case DoClean(t, ok) =>
        ViewAlike(lim, s.entries, b, clock, t);
        SoundLater(lim, b, clock, t);
      case DoClose(ok) =>
      case DoRestart(t) =>
        ReloadKeeps(lim, s.entries, s.log, clock, t);
        ViewAlike(lim, s.entries, b, clock, t);
        SoundLater(lim, b, clock, t);
      case DoCrash(id, response, t, ok, point, restart) => CrashAlike(lim, s, b, clock, step);
    }
  }

  lemma CrashAlike(lim: Limits, s: State, b: Entries, clock: int, step: Step)
    requires Inv(lim, s, clock) && Sound(lim, b, clock) && Alike(lim, s.entries, b, clock) && Timely(clock, step)
    requires step.DoCrash?
    ensures Alike(lim, Next(lim, s, step).entries, Ideal(lim, b, s, step), Clock(clock, step))
    ensures Sound(lim, Ideal(lim, b, s, step), Clock(clock, step))
  {
    hide View, Replay, Snapshot, Insert, Sound, Durable, Logged, CrashLog, Survives, Alike;
    var DoCrash(id, response, t, ok, point, restart) := step;
    var e := Entry(response, t);
    CrashRecovers(lim, s, clock, id, response, t, ok, point);
    PutAlike(lim, s.entries, b, id, e, clock);
    ViewAlike(lim, s.entries, b, clock, t);
    SoundInsert(lim, b, id, e, clock);
    SoundLater(lim, b, clock, t);
    var survivor := if Survives(lim, s, ok, point) then Insert(lim, s.entries, id, e) else s.entries;
    var ideal := Ideal(lim, b, s, step);
    ReloadKeeps(lim, survivor, CrashLog(lim, s, id, response, t, ok, point), t, restart);
    ViewAlike(lim, survivor, ideal, t, restart);
    SoundLater(lim, ideal, t, restart);
  }

  lemma {:induction false} RunAlike(lim: Limits, s: State, b: Entries, clock: int, steps: seq<Step>)
    requires Inv(lim, s, clock) && Sound(lim, b, clock) && Alike(lim, s.entries, b, clock) && AllTimely(clock, steps)
    ensures Alike(lim, Run(lim, s, steps).entries, IdealRun(lim, b, s, steps), EndClock(clock, steps))
    decreases steps
  {
    hide Inv, Next, Timely, Ideal, Sound, Alike;
    if steps != [] {
      StepAlike(lim, s, b, clock, steps[0]);
      StepKeeps(lim, s, clock, steps[0]);
      RunAlike(lim, Next(lim, s, steps[0]), Ideal(lim, b, s, steps[0]), Clock(clock, steps[0]), steps[1..]);
    }
  }

  /** Get */
  function Get(lim: Limits, m: Entries, id: string, now: int): Option<string> {
    if id in m && !Expired(lim, m[id].createdAt, now) then m[id].response else None
  }

  /** Main result: every lookup after any history answers like an in-memory store that saw the surviving stores and
      never cleaned up, restarted or crashed. */
  lemma LookupsSurvive(lim: Limits, start: int, steps: seq<Step>, id: string, now: int)
    requires lim.Valid() && AllTimely(start, steps) && EndClock(start, steps) <= now
    ensures var s := State(map[], [], 0);
      Get(lim, Run(lim, s, steps).entries, id, now) == Get(lim, IdealRun(lim, map[], s, steps), id, now)
  {
    hide Run, IdealRun, AllTimely, EndClock, Replay;
    var s := State(map[], [], 0);
    EmptyKeeps(lim, start);
    RunAlike(lim, s, map[], start, steps);
    var (a, b) := (Run(lim, s, steps).entries, IdealRun(lim, map[], s, steps));
    GetIsView(lim, a, id, now);
    GetIsView(lim, b, id, now);
    assert View(lim, a, now) == View(lim, b, now);
  }

  lemma GetIsView(lim: Limits, m: Entries, id: string, now: int)
    ensures Get(lim, m, id, now) == if id in View(lim, m, now) then View(lim, m, now)[id].response else None
  {
  }

  // ---- Why the assumptions are there ----

  /** Does storing now end in a compaction that succeeds? */
  ghost predicate Compacts(lim: Limits, s: State, ok: bool) {
    ok && s.compactN + (if |s.entries| >= lim.maxSize then 1 else 0) >= lim.maxSize
  }

  /** The id to be stored is already there with the very same time. */
  predicate Tied(m: Entries, id: string, t: int) {
    id in m && m[id].createdAt == t
  }

  lemma PutLog(lim: Limits, s: State, id: string, response: Option<string>, t: int, ok: bool)
    ensures var (p, m) := (Put(lim, s, id, response, t, ok), Insert(lim, s.entries, id, Entry(response, t)));
      p.entries == m && p.log == (if Compacts(lim, s, ok) then Snapshot(m) else s.log) + [Record(id, t, response)]
  {
    hide Insert, Snapshot;
  }

  /** After a compaction the store is in the log twice, tied or not. */
  lemma CompactedRecovers(lim: Limits, m: Entries, id: string, e: Entry, now: int)
    requires lim.Valid() && Storable(m) && |m| <= lim.maxSize && id != "" && e.response.Some?
    ensures var n := Insert(lim, m, id, e);
      Replay(lim, Snapshot(n) + [Record(id, e.createdAt, e.response)], now) == View(lim, n, now)
  {
    hide Snapshot, Insert, Replay;
    var n := Insert(lim, m, id, e);
    InsertTimes(lim, m, id, e);
    InsertSize(lim, m, id, e);
    SnapshotReplays(lim, n, now);
    ReplaySnoc(lim, Snapshot(n), Record(id, e.createdAt, e.response), now);
  }

  lemma InsertSize(lim: Limits, m: Entries, id: string, e: Entry)
    requires lim.Valid() && |m| <= lim.maxSize
    ensures |Insert(lim, m, id, e)| <= lim.maxSize
  {
    UpdateSize(m, id, e);
    UpdateSize(Evict(m), id, e);
  }

  /** With a tie the record is skipped at recovery, and so is the eviction that went with the store. */
  lemma TiedViews(lim: Limits, m: Entries, id: string, e: Entry, now: int)
    requires Sound(lim, m, e.createdAt) && Tied(m, id, e.createdAt) && !Expired(lim, e.createdAt, now)
    ensures View(lim, m, now) == View(lim, Insert(lim, m, id, e), now) <==>
      m[id].response == e.response &&
      (|m| >= lim.maxSize ==> OldestId(m) == id || Expired(lim, m[OldestId(m)].createdAt, now))
  {
    hide OldestId, Evict, View, IsOldest;
    var (v, o) := (View(lim, m, now), OldestId(m));
    ViewHas(lim, m, id, now);
    if |m| < lim.maxSize {
      ViewUpdate(lim, m, id, e, now);
      UpdateSame(v, id, e);
    } else {
      var rest := View(lim, m - {o}, now);
      EvictIs(m, o);
      ViewUpdate(lim, m - {o}, id, e, now);
      OldestThere(m, o);
      ViewNewest(lim, m, o, now);
      if o == id {
        OldestTied(lim, m, id, e.createdAt);
        assert v[id] == m[id] && rest[id := e][id] == e;
        assert m[id] == e ==> v == rest[id := e];
      } else if Expired(lim, m[o].createdAt, now) {
        UpdateSame(v, id, e);
      } else {
        assert o in v && o !in rest[id := e];
      }
    }
  }

  lemma UpdateSame(v: Entries, id: string, e: Entry)
    requires id in v
    ensures v == v[id := e] <==> v[id] == e
  {
    assert v[id := e][id] == e;
  }

  lemma OldestThere(m: Entries, o: string)
    requires IsOldest(m, o)
    ensures o in m
  {
  }

  /** The oldest entry can only be as late as the store if it is the only one. */
  lemma OldestTied(lim: Limits, m: Entries, id: string, t: int)
    requires Sound(lim, m, t) && Tied(m, id, t) && IsOldest(m, id)
    ensures forall k :: k in m ==> k == id
  {
    forall k | k in m ensures k == id {
      assert m[k].createdAt == m[id].createdAt;
    }
  }

  /** What a restart makes of one more store at a time no earlier than the entries: all that memory shows, unless the id
      is tied. Then only if a compaction wrote it, or all is expired, or it repeats the response that is there and no
      entry still visible was evicted for it. */
  lemma TieRecoveredIff(lim: Limits, s: State, id: string, response: string, t: int, ok: bool, now: int)
    requires Inv(lim, s, t) && id != "" && t <= now
    ensures var (p, m) := (Put(lim, s, id, Some(response), t, ok), s.entries);
      Reload(lim, p.log, now).entries == View(lim, p.entries, now) <==>
        !Tied(m, id, t) || Compacts(lim, s, ok) || Expired(lim, t, now) ||
        (m[id].response == Some(response) &&
         (|m| >= lim.maxSize ==> OldestId(m) == id || Expired(lim, m[OldestId(m)].createdAt, now)))
  {
    hide View, Insert, Snapshot, Put, Replay, Evict, OldestId, Sound;
    var (m, e, rec) := (s.entries, Entry(Some(response), t), Record(id, t, Some(response)));
    PutLog(lim, s, id, Some(response), t, ok);
    SoundFacts(lim, m, t);
    if Compacts(lim, s, ok) {
      CompactedRecovers(lim, m, id, e, now);
    } else {
      ReplaySnoc(lim, s.log, rec, now);
      if !Tied(m, id, t) {
        PutView(lim, m, id, e, t, now);
      } else if Expired(lim, t, now) {
        AllExpired(lim, m, now);
        InsertTimes(lim, m, id, e);
        AllExpired(lim, Insert(lim, m, id, e), now);
      } else {
        TiedViews(lim, m, id, e, now);
        ViewHas(lim, m, id, now);
      }
    }
  }

  lemma SoundFacts(lim: Limits, m: Entries, t: int)
    requires Sound(lim, m, t)
    ensures lim.Valid() && Storable(m) && |m| <= lim.maxSize && forall k :: k in m ==> m[k].createdAt <= t
  {
  }

  lemma ViewHas(lim: Limits, m: Entries, id: string, now: int)
    requires id in m
    ensures Expired(lim, m[id].createdAt, now) || (id in View(lim, m, now) && View(lim, m, now)[id] == m[id])
  {
  }

  /** The lookup alone: a tied store that no compaction wrote is lost unless it repeats the response that is there. */
  lemma TieLookupIff(lim: Limits, s: State, id: string, response: string, t: int, ok: bool, now: int)
    requires Inv(lim, s, t) && id != "" && t <= now && !Expired(lim, t, now)
    ensures var p := Put(lim, s, id, Some(response), t, ok);
      Get(lim, p.entries, id, now) == Some(response) &&
      (Get(lim, Reload(lim, p.log, now).entries, id, now) == Some(response) <==>
         !Tied(s.entries, id, t) || Compacts(lim, s, ok) || s.entries[id].response == Some(response))
  {
    hide View, Insert, Snapshot, Put, Replay, Evict, OldestId, Sound;
    var (m, e, rec) := (s.entries, Entry(Some(response), t), Record(id, t, Some(response)));
    PutLog(lim, s, id, Some(response), t, ok);
    SoundFacts(lim, m, t);
    InsertTimes(lim, m, id, e);
    TieRecoveredIff(lim, s, id, response, t, ok, now);
    ViewHas(lim, Insert(lim, m, id, e), id, now);
    ReplaySnoc(lim, s.log, rec, now);
    if Tied(m, id, t) { ViewHas(lim, m, id, now); }
  }
}
