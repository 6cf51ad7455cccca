/** How far the log of the response store grows between compactions (store/file.go). */
module StoreGrowth {
  import opened Options
  import opened StoreModel
  import opened StoreRecovery

  /** A step of a running process: no restart, no crash, and a compaction that falls due succeeds if `ok`. */
  predicate Running(step: Step, ok: bool) {
    match step
    case DoPut(_, _, _, compactOk) => ok ==> compactOk
    case DoClean(_, compactOk) => ok ==> compactOk
    case DoClose(compactOk) => ok ==> compactOk
    case _ => false
  }

  predicate AllRunning(steps: seq<Step>, ok: bool) {
    forall i :: 0 <= i < |steps| ==> Running(steps[i], ok)
  }

  /** The stores that find the store full. */
  ghost function Overflows(lim: Limits, s: State, steps: seq<Step>): nat
    decreases steps
  {
    if steps == [] then 0
    else
      (if steps[0].DoPut? && |s.entries| >= lim.maxSize then 1 else 0)
      + Overflows(lim, Next(lim, s, steps[0]), steps[1..])
  }

  /** The stores under an id that is there already. */
  ghost function Repeats(lim: Limits, s: State, steps: seq<Step>): nat
    decreases steps
  {
    if steps == [] then 0
    else
      (if steps[0].DoPut? && steps[0].id in s.entries then 1 else 0)
      + Repeats(lim, Next(lim, s, steps[0]), steps[1..])
  }

  /** The stores that try a compaction. */
  ghost function Tried(lim: Limits, s: State, steps: seq<Step>): nat
    decreases steps
  {
    if steps == [] then 0
    else TriedBy(lim, s, steps[0]) + Tried(lim, Next(lim, s, steps[0]), steps[1..])
  }

  function TriedBy(lim: Limits, s: State, step: Step): nat {
    if step.DoPut? && s.compactN + (if |s.entries| >= lim.maxSize then 1 else 0) >= lim.maxSize then 1 else 0
  }

  ghost predicate Roomy(lim: Limits, s: State) {
    lim.Valid() && |s.entries| <= lim.maxSize && s.compactN < lim.maxSize
  }

  /** The lines of the log beyond one for each entry, one for each eviction since the last compaction, and one for the
      store that compacts, which appends its record although it has just been written. */
  function Excess(s: State): int {
    |s.log| - |s.entries| - s.compactN - 1
  }

  lemma InsertGrows(lim: Limits, m: Entries, id: string, e: Entry)
    requires lim.Valid() && |m| <= lim.maxSize
    ensures var n := Insert(lim, m, id, e);
      |n| <= lim.maxSize && |n| >= |m| + (if id in m then 0 else 1) - (if |m| >= lim.maxSize then 1 else 0)
  {
    var r := if |m| >= lim.maxSize then Evict(m) else m;
    assert r[id := e].Keys == r.Keys + {id};
    assert id in r ==> r.Keys + {id} == r.Keys;
    EvictedPart(m, id);
  }

  lemma EvictedPart(m: Entries, id: string)
    ensures id in Evict(m) ==> id in m
  {
  }

  lemma PutGrows(lim: Limits, s: State, id: string, response: Option<string>, t: int, ok: bool)
    requires Roomy(lim, s)
    ensures var d := Put(lim, s, id, response, t, ok);
      Roomy(lim, d) && (var n := s.compactN + if |s.entries| >= lim.maxSize then 1 else 0;
                        d.compactN == if n >= lim.maxSize then n - lim.maxSize else n) &&
      (ok && Excess(s) <= 0 ==> Excess(d) <= if id in s.entries then 1 else 0) &&
      (ok && Excess(s) > 0 ==> Excess(d) <= Excess(s) + if id in s.entries then 1 else 0)
  {
    hide Insert, Snapshot;
    InsertGrows(lim, s.entries, id, Entry(response, t));
    SnapshotIs(Insert(lim, s.entries, id, Entry(response, t)));
  }

  lemma CleanGrows(lim: Limits, s: State, t: int, ok: bool)
    requires Roomy(lim, s)
    ensures var d := Clean(lim, s, t, ok);
      Roomy(lim, d) && d.compactN == s.compactN && (ok ==> Excess(d) <= 0 || Excess(d) <= Excess(s))
  {
    hide View, Snapshot;
    ViewSmaller(lim, s.entries, t);
    SnapshotIs(View(lim, s.entries, t));
  }

  lemma StepGrows(lim: Limits, s: State, step: Step, ok: bool)
    requires Roomy(lim, s) && Running(step, ok)
    ensures var d := Next(lim, s, step);
      Roomy(lim, d) &&
      d.compactN + (if TriedBy(lim, s, step) == 1 then lim.maxSize else 0) ==
        s.compactN + (if step.DoPut? && |s.entries| >= lim.maxSize then 1 else 0) &&
      (ok ==> var more := if step.DoPut? && step.id in s.entries then 1 else 0;
              Excess(d) <= if Excess(s) > 0 then Excess(s) + more else more)
  {
    hide Put, Clean, Snapshot;
    match step {
      case DoPut(id, response, t, compactOk) => PutGrows(lim, s, id, response, t, compactOk);
      case DoClean(t, compactOk) => CleanGrows(lim, s, t, compactOk);
      case DoClose(compactOk) => SnapshotIs(s.entries);
    }
  }

  /** Main result: while a process runs, a compaction is tried at every capacity-th store that found the store full, and
      the counter is the number of those since the last one tried; and if compactions succeed, the log holds no more
      than one line for each entry, one for each eviction since the last compaction, one, and one for each store under
      an id that was there already. */
  lemma {:induction false} GrowthLaw(lim: Limits, s: State, steps: seq<Step>, ok: bool)
    requires Roomy(lim, s) && AllRunning(steps, ok)
    ensures var d := Run(lim, s, steps);
      Roomy(lim, d) && s.compactN + Overflows(lim, s, steps) == d.compactN + Tried(lim, s, steps) * lim.maxSize &&
      (ok ==> Excess(d) <= (if Excess(s) > 0 then Excess(s) else 0) + Repeats(lim, s, steps))
    decreases steps
  {
    hide Next, Running, Excess, TriedBy;
    if steps != [] {
      var next := Next(lim, s, steps[0]);
      StepGrows(lim, s, steps[0], ok);
      GrowthLaw(lim, next, steps[1..], ok);
      OneMore(TriedBy(lim, s, steps[0]), Tried(lim, next, steps[1..]), lim.maxSize) by {
        AtMostOnce(lim, s, steps[0]);
      }
    }
  }

  lemma AtMostOnce(lim: Limits, s: State, step: Step)
    ensures TriedBy(lim, s, step) <= 1
  {
  }

  lemma OneMore(b: nat, k: nat, n: int)
    requires b <= 1
    ensures (b + k) * n == (if b == 1 then n else 0) + k * n
  {
  }

  /** Without such stores the log never reaches twice the capacity, however long the process runs. */
  lemma LogBound(lim: Limits, steps: seq<Step>)
    requires lim.Valid() && AllRunning(steps, true) && Repeats(lim, State(map[], [], 0), steps) == 0
    ensures |Run(lim, State(map[], [], 0), steps).log| <= 2 * lim.maxSize
  {
    hide Run, Repeats, Overflows;
    GrowthLaw(lim, State(map[], [], 0), steps, true);
  }

  /** `n` stores of one id. */
  function Again(id: string, response: Option<string>, n: nat): seq<Step> {
    if n == 0 then [] else Again(id, response, n - 1) + [DoPut(id, response, n, true)]
  }

  /** But storing one id again and again, below the capacity, is never compacted. */
  lemma {:induction false} OneIdGrows(lim: Limits, id: string, response: Option<string>, n: nat)
    requires lim.maxSize >= 2
    ensures var d := Run(lim, State(map[], [], 0), Again(id, response, n));
      |d.log| == n && d.compactN == 0 && d.entries == if n == 0 then map[] else map[id := Entry(response, n)]
  {
    if n > 0 {
      OneIdGrows(lim, id, response, n - 1);
      RunSnoc(lim, State(map[], [], 0), Again(id, response, n - 1), DoPut(id, response, n, true));
    }
  }

  lemma {:induction false} RunSnoc(lim: Limits, s: State, steps: seq<Step>, step: Step)
    ensures Run(lim, s, steps + [step]) == Next(lim, Run(lim, s, steps), step)
    decreases steps
  {
    hide Next;
    if steps == [] {
      assert [] + [step] == [step] && [step][1..] == [];
    } else {
      assert (steps + [step])[1..] == steps[1..] + [step];
      RunSnoc(lim, Next(lim, s, steps[0]), steps[1..], step);
    }
  }
}
