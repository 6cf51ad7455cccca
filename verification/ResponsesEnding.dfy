/** When response.completed is the last event of a Responses stream (translator/responses_stream.go). */
module ResponsesEnding {
  import opened Tags
  import opened Chunks
  import opened Options
  import opened Normalizer
  import opened StreamGuarantees
  import opened ResponsesStream
  import opened ResponsesSnapshot
  import AnthropicContent
  import AO = AnthropicOrder

  // ---- A run, cut at its first finish ----

  datatype Parts = Parts(before: seq<Action>, finish: Action, after: seq<Action>)

  /** The actions of a run: before the first finish, the finish, behind it. */
  function PartsOf(setup: Setup, s: Translator, chunks: seq<StreamChunk>): Parts
    requires s.normalizer.parser.Valid()
    decreases chunks
  {
    if chunks == [] then Parts(SpeechActions(Close(s.normalizer).1), Finish(s.lastUsage), [])
    else
      var (c, next) := (chunks[0], Process(setup, s, chunks[0]));
      if !Bearing(c) then PartsOf(setup, next, chunks[1..])
      else if Ends(c) then Parts(Talk(s.normalizer, c), Finish(c.usage), RunActions(setup, next, chunks[1..]))
      else
        var p := PartsOf(setup, next, chunks[1..]);
        p.(before := Talk(s.normalizer, c) + p.before)
  }

  /** The actions of one chunk without its finish. */
  function Talk(n: State, c: StreamChunk): seq<Action>
    requires n.parser.Valid() && c.choices != []
  {
    [Start(c.model)]
    + SpeechActions(Deliver(n, c.choices[0].content, c.choices[0].reasoning).1)
    + ToolActions(c.choices[0].toolCalls)
  }

  lemma UnfinishedAppend(a: seq<Action>, b: seq<Action>)
    ensures Unfinished(a + b) <==> Unfinished(a) && Unfinished(b)
  {
    assert forall i :: 0 <= i < |a| ==> (a + b)[i] == a[i];
    assert forall i :: 0 <= i < |b| ==> (a + b)[|a| + i] == b[i];
  }

  lemma {:induction false} SpeechUnfinished(out: seq<Emission>)
    ensures Unfinished(SpeechActions(out))
  {
    if out != [] { SpeechUnfinished(out[1..]); }
  }

  lemma {:induction false} FragmentsUnfinished(fragments: seq<ToolFragment>)
    ensures Unfinished(FragmentsActions(fragments))
  {
    if fragments != [] { FragmentsUnfinished(fragments[1..]); }
  }

  lemma TalkUnfinished(n: State, c: StreamChunk)
    requires n.parser.Valid() && c.choices != []
    ensures var talk := Talk(n, c); Unfinished(talk) && talk != [] && talk[0].Start?
    ensures ChunkActions(n, c) == if c.choices[0].finishReason.Some? then Talk(n, c) + [Finish(c.usage)] else Talk(n, c)
  {
    hide SpeechActions, FragmentsActions, Deliver;
    var out := Deliver(n, c.choices[0].content, c.choices[0].reasoning).1;
    SpeechUnfinished(out);
    FragmentsUnfinished(c.choices[0].toolCalls);
    assert Talk(n, c) + [] == Talk(n, c);
  }

  predicate HasStart(h: seq<Action>) {
    exists i :: 0 <= i < |h| && h[i].Start?
  }

  /** The first finish of `h` is `p.finish`. */
  ghost predicate IsCut(h: seq<Action>, p: Parts) {
    h == p.before + [p.finish] + p.after && p.finish.Finish? && Unfinished(p.before) &&
    (p.after != [] ==> HasStart(p.before))
  }

  lemma CutLater(talk: seq<Action>, h: seq<Action>, p: Parts)
    requires IsCut(h, p) && Unfinished(talk) && talk != [] && talk[0].Start?
    ensures IsCut(talk + h, p.(before := talk + p.before))
  {
    hide Unfinished;
    UnfinishedAppend(talk, p.before);
    assert (talk + p.before)[0].Start?;
    assert talk + (p.before + [p.finish] + p.after) == talk + p.before + [p.finish] + p.after;
  }

  lemma CutHere(talk: seq<Action>, f: Action, after: seq<Action>)
    requires Unfinished(talk) && f.Finish? && (after != [] ==> talk != [] && talk[0].Start?)
    ensures IsCut(talk + [f] + after, Parts(talk, f, after))
  {
    hide Unfinished;
  }

  lemma {:induction false} RunIsParts(setup: Setup, s: Translator, chunks: seq<StreamChunk>)
    requires s.normalizer.parser.Valid()
    ensures IsCut(RunActions(setup, s, chunks), PartsOf(setup, s, chunks))
    decreases chunks
  {
    hide IsCut, Unfinished, Talk, SpeechActions, Deliver, Keepalive, Process, Close, ChunkActions;
    if chunks == [] {
      SpeechUnfinished(Close(s.normalizer).1);
      var p := PartsOf(setup, s, []);
      CutHere(p.before, p.finish, []);
      assert p.before + [p.finish] + [] == p.before + [p.finish];
    } else {
      var (c, next) := (chunks[0], Process(setup, s, chunks[0]));
      if !Bearing(c) {
        RunIsParts(setup, next, chunks[1..]);
        assert [] + RunActions(setup, next, chunks[1..]) == RunActions(setup, next, chunks[1..]);
      } else {
        TalkUnfinished(s.normalizer, c);
        if Ends(c) {
          var p := PartsOf(setup, s, chunks);
          CutHere(p.before, p.finish, p.after);
        } else {
          RunIsParts(setup, next, chunks[1..]);
          CutLater(Talk(s.normalizer, c), RunActions(setup, next, chunks[1..]), PartsOf(setup, next, chunks[1..]));
        }
      }
    }
  }

  /** The part before the first finish is what the snapshot explains. */
  lemma BeforeIsCut(setup: Setup, chunks: seq<StreamChunk>, g: seq<Action>)
    requires CutAt(RunActions(setup, INITIAL, chunks), g)
    ensures g == PartsOf(setup, INITIAL, chunks).before
  {
    hide RunActions, PartsOf, Unfinished;
    var (h, p) := (RunActions(setup, INITIAL, chunks), PartsOf(setup, INITIAL, chunks));
    RunIsParts(setup, INITIAL, chunks);
    assert p.before <= h && h[|p.before|] == p.finish;
    CutOnce(h, g, p.before);
  }

  // ---- Behind the closing event ----

  predicate CompletedLast(t: seq<ResponseEvent>) {
    t != [] && t[|t| - 1].Completed?
  }

  /** An action that sends nothing behind the end, given the calls so far; arguments of a custom tool may lengthen
      nothing. */
  predicate Mute(setup: Setup, calls: seq<Call>, a: Action) {
    !a.Say? && !a.Think? && !a.ToolStart? &&
    (a.ToolArgs? ==> calls == [] || AddFragment(setup, calls[|calls| - 1], a.text).1.None?)
  }

  lemma StepBehind(setup: Setup, c: Core, a: Action)
    requires c.finished && c.started
    ensures Act(setup, c, a).finished && Act(setup, c, a).started
    ensures CompletedLast(Act(setup, c, a).trace) <==> CompletedLast(c.trace) && Mute(setup, c.calls, a)
  {
    hide AddFragment;
  }

  /** The calls of any history, before or behind a finish. */
  lemma {:induction false} CallsTrack(setup: Setup, h: seq<Action>)
    ensures ActAll(setup, EMPTY, h).calls == StatesOf(setup, CallsOf(h))
    decreases |h|
  {
    hide Act, StatesOf;
    if h == [] {
      assert StatesOf(setup, []) == [] by { NoStates(setup); }
    } else {
      var n := |h| - 1;
      CallsTrack(setup, h[..n]);
      StepTracks(setup, ActAll(setup, EMPTY, h[..n]), CallsOf(h[..n]), h[n]);
    }
  }

  lemma NoStates(setup: Setup)
    ensures StatesOf(setup, []) == []
  {
  }

  lemma StepTracks(setup: Setup, c: Core, calls: seq<CallInput>, a: Action)
    requires c.calls == StatesOf(setup, calls)
    ensures Act(setup, c, a).calls == StatesOf(setup, CallStep(calls, a))
  {
    hide Fold, AddFragment;
    match a {
      case ToolStart(id, name) =>
        NewState(setup, id, name);
        assert StatesOf(setup, calls + [CallInput(id, name, [])]) ==
          StatesOf(setup, calls) + [NewCall(setup, id, name)];
      case ToolArgs(text) => if calls != [] { AddToLast(setup, calls, text); }
      case _ =>
    }
  }

  lemma NewState(setup: Setup, id: string, name: string)
    ensures StateOf(setup, CallInput(id, name, [])) == NewCall(setup, id, name)
  {
  }

  /** Every action of `h`, which comes behind `before`, sends nothing. */
  predicate AllMute(setup: Setup, before: seq<Action>, h: seq<Action>) {
    forall i :: 0 <= i < |h| ==> Mute(setup, StatesOf(setup, CallsOf(before + h[..i])), h[i])
  }

  lemma MuteSnoc(setup: Setup, before: seq<Action>, h: seq<Action>)
    requires h != []
    ensures var n := |h| - 1;
      AllMute(setup, before, h) <==>
      AllMute(setup, before, h[..n]) && Mute(setup, StatesOf(setup, CallsOf(before + h[..n])), h[n])
  {
    hide Mute, StatesOf, CallsOf;
    assert forall i :: 0 <= i < |h| - 1 ==> h[..|h| - 1][..i] == h[..i] && h[..|h| - 1][i] == h[i];
  }

  lemma {:induction false} BehindCompleted(setup: Setup, before: seq<Action>, h: seq<Action>)
    requires var c := ActAll(setup, EMPTY, before); c.finished && (c.started || h == [])
    ensures var (c, d) := (ActAll(setup, EMPTY, before), ActAll(setup, EMPTY, before + h));
      d.finished && (c.started ==> d.started) &&
      (CompletedLast(d.trace) <==> CompletedLast(c.trace) && AllMute(setup, before, h))
    decreases |h|
  {
    hide Act, ActAll, CompletedLast, Mute, AllMute;
    if h == [] {
      assert before + h == before;
      NothingMute(setup, before);
    } else {
      var n := |h| - 1;
      BehindCompleted(setup, before, h[..n]);
      var k := before + h[..n];
      assert before + h == k + [h[n]];
      ActSnoc(setup, EMPTY, k, h[n]);
      CallsTrack(setup, k);
      StepBehind(setup, ActAll(setup, EMPTY, k), h[n]);
      MuteSnoc(setup, before, h);
    }
  }

  lemma NothingMute(setup: Setup, before: seq<Action>)
    ensures AllMute(setup, before, [])
  {
  }

  /** Has the response been started, has it been completed? */
  lemma {:induction false} Flags(setup: Setup, h: seq<Action>)
    ensures var c := ActAll(setup, EMPTY, h); c.finished == !Unfinished(h) && (HasStart(h) ==> c.started)
    decreases |h|
  {
    hide Act;
    if h != [] {
      var n := |h| - 1;
      Flags(setup, h[..n]);
      FlagStep(setup, ActAll(setup, EMPTY, h[..n]), h[n]);
      assert h == h[..n] + [h[n]];
      assert forall i :: 0 <= i < n ==> h[..n][i] == h[i];
    }
  }

  lemma FlagStep(setup: Setup, c: Core, a: Action)
    ensures Act(setup, c, a).finished == (c.finished || a.Finish?)
    ensures c.started || a.Start? ==> Act(setup, c, a).started
  {
  }

  lemma FinishCompletes(setup: Setup, g: seq<Action>, f: Action)
    requires Unfinished(g) && f.Finish?
    ensures var d := ActAll(setup, EMPTY, g + [f]); d.finished && CompletedLast(d.trace) && (HasStart(g) ==> d.started)
  {
    hide ActAll, BuildOutput, CloseCalls;
    Flags(setup, g);
    ActSnoc(setup, EMPTY, g, f);
  }

  /** Main result, exact, for every run: response.completed is the last event if and only if every action behind the
      first finish, the final flush included, is mute. */
  lemma CompletedLastIff(setup: Setup, chunks: seq<StreamChunk>)
    ensures var p := PartsOf(setup, INITIAL, chunks);
      CompletedLast(Whole(setup, chunks).core.trace) <==> AllMute(setup, p.before + [p.finish], p.after)
  {
    hide ActAll, RunActions, Unfinished, HasStart, AllMute, PartsOf, Chunked, CompletedLast;
    var p := PartsOf(setup, INITIAL, chunks);
    RunIsParts(setup, INITIAL, chunks);
    RunIsActions(setup, INITIAL, chunks);
    FinishCompletes(setup, p.before, p.finish);
    BehindCompleted(setup, p.before + [p.finish], p.after);
  }

  // ---- On the chunks ----

  function CallsAfter(setup: Setup, h: seq<Action>): seq<Call> {
    StatesOf(setup, CallsOf(h))
  }

  lemma MuteAppend(setup: Setup, before: seq<Action>, a: seq<Action>, b: seq<Action>)
    ensures AllMute(setup, before, a + b) <==> AllMute(setup, before, a) && AllMute(setup, before + a, b)
  {
    hide Mute, StatesOf, CallsOf;
    var h := a + b;
    assert forall i :: 0 <= i < |a| ==> h[..i] == a[..i] && h[i] == a[i];
    forall i | 0 <= i < |b| ensures before + h[..|a| + i] == before + a + b[..i] && h[|a| + i] == b[i] {
      assert h[..|a| + i] == a + b[..i];
      assert before + (a + b[..i]) == before + a + b[..i];
    }
    assert AllMute(setup, before, h) ==> AllMute(setup, before + a, b) by { MuteBack(setup, before, a, b); }
    assert AllMute(setup, before, a) && AllMute(setup, before + a, b) ==> AllMute(setup, before, h) by {
      forall i | |a| <= i < |h| ensures h[i] == b[i - |a|] && before + h[..i] == before + a + b[..i - |a|] {
        assert h[..|a| + (i - |a|)] == h[..i];
      }
    }
  }

  lemma MuteBack(setup: Setup, before: seq<Action>, a: seq<Action>, b: seq<Action>)
    requires forall i :: 0 <= i < |b| ==> before + (a + b)[..|a| + i] == before + a + b[..i] && (a + b)[|a| + i] == b[i]
    ensures AllMute(setup, before, a + b) ==> AllMute(setup, before + a, b)
  {
    hide Mute, StatesOf, CallsOf;
    if AllMute(setup, before, a + b) {
      forall i | 0 <= i < |b| ensures Mute(setup, StatesOf(setup, CallsOf(before + a + b[..i])), b[i]) {
        assert Mute(setup, StatesOf(setup, CallsOf(before + (a + b)[..|a| + i])), (a + b)[|a| + i]);
      }
    }
  }

  lemma MuteOne(setup: Setup, before: seq<Action>, a: Action)
    ensures AllMute(setup, before, [a]) <==> Mute(setup, CallsAfter(setup, before), a)
    ensures AllMute(setup, before, [])
  {
    hide Mute, StatesOf, CallsOf;
    assert [a][..0] == [] && before + [] == before;
  }

  /** Starts and finishes send nothing behind the end, and leave the calls alone; so does the mark that tools begin. */
  lemma MuteMark(setup: Setup, before: seq<Action>, h: seq<Action>)
    requires |h| <= 1 && (h != [] ==> h[0].Start? || h[0].Finish? || h[0].ToolBegin?)
    ensures AllMute(setup, before, h) && CallsAfter(setup, before + h) == CallsAfter(setup, before)
  {
    hide CallsOf, StatesOf;
    if h == [] {
      assert before + h == before;
    } else {
      assert h == [h[0]];
      MuteOne(setup, before, h[0]);
      HistorySnoc(before, h[0]);
    }
  }

  lemma {:induction false} SpeechMute(setup: Setup, before: seq<Action>, out: seq<Emission>)
    ensures AllMute(setup, before, SpeechActions(out)) <==> SpeechActions(out) == []
    ensures CallsAfter(setup, before + SpeechActions(out)) == CallsAfter(setup, before)
    decreases out
  {
    hide AllMute, CallsAfter;
    if out == [] {
      MuteMark(setup, before, []);
    } else {
      var (first, rest) := (EmissionActions(out[0]), SpeechActions(out[1..]));
      MuteAppend(setup, before, first, rest);
      SpokenMute(setup, before, first);
      SpeechMute(setup, before + first, out[1..]);
      assert before + (first + rest) == before + first + rest;
    }
  }

  lemma SpokenMute(setup: Setup, before: seq<Action>, h: seq<Action>)
    requires |h| <= 1 && (h != [] ==> h[0].Say? || h[0].Think?)
    ensures AllMute(setup, before, h) <==> h == []
    ensures CallsAfter(setup, before + h) == CallsAfter(setup, before)
  {
    hide CallsOf, StatesOf;
    if h == [] {
      assert before + h == before;
    } else {
      assert h == [h[0]];
      MuteOne(setup, before, h[0]);
      HistorySnoc(before, h[0]);
    }
  }

  lemma {:induction false} SpeechAppend(a: seq<Emission>, b: seq<Emission>)
    ensures SpeechActions(a + b) == SpeechActions(a) + SpeechActions(b)
  {
    if a == [] {
      assert a + b == b;
    } else {
      assert (a + b)[1..] == a[1..] + b;
      SpeechAppend(a[1..], b);
    }
  }

  /** The calls after one more tool fragment. */
  function TakeArguments(setup: Setup, calls: seq<Call>, text: string): seq<Call> {
    if calls == [] || text == "" then calls
    else calls[|calls| - 1 := AddFragment(setup, calls[|calls| - 1], text).0]
  }

  function TakeFragment(setup: Setup, calls: seq<Call>, f: ToolFragment): seq<Call> {
    TakeArguments(setup, if f.id != "" then calls + [NewCall(setup, f.id, f.name)] else calls, f.arguments)
  }

  function TakeAll(setup: Setup, calls: seq<Call>, fragments: seq<ToolFragment>): seq<Call>
    decreases fragments
  {
    if fragments == [] then calls else TakeAll(setup, TakeFragment(setup, calls, fragments[0]), fragments[1..])
  }

  /** Fragments that send nothing: none has an id, and arguments come before any call, or lengthen no extracted input.
      */
  predicate MuteFragments(setup: Setup, calls: seq<Call>, fragments: seq<ToolFragment>)
    decreases fragments
  {
    fragments == [] ||
    (fragments[0].id == "" &&
     (fragments[0].arguments != "" && calls != [] ==>
        AddFragment(setup, calls[|calls| - 1], fragments[0].arguments).1.None?) &&
     MuteFragments(setup, TakeFragment(setup, calls, fragments[0]), fragments[1..]))
  }

  lemma {:induction false} TakeAppend(setup: Setup, calls: seq<Call>, a: seq<ToolFragment>, b: seq<ToolFragment>)
    ensures TakeAll(setup, calls, a + b) == TakeAll(setup, TakeAll(setup, calls, a), b)
    ensures MuteFragments(setup, calls, a + b) <==>
      MuteFragments(setup, calls, a) && MuteFragments(setup, TakeAll(setup, calls, a), b)
    decreases a
  {
    hide AddFragment, TakeFragment;
    if a == [] {
      assert a + b == b;
    } else {
      assert (a + b)[1..] == a[1..] + b && (a + b)[0] == a[0];
      TakeAppend(setup, TakeFragment(setup, calls, a[0]), a[1..], b);
    }
  }

  lemma ArgumentsMute(setup: Setup, before: seq<Action>, text: string)
    ensures var (h, calls) := (if text != "" then [ToolArgs(text)] else [], CallsAfter(setup, before));
      CallsAfter(setup, before + h) == TakeArguments(setup, calls, text) &&
      (AllMute(setup, before, h) <==>
         (text != "" && calls != [] ==> AddFragment(setup, calls[|calls| - 1], text).1.None?))
  {
    hide AddFragment, CallsOf, StatesOf;
    if text == "" {
      MuteMark(setup, before, []);
    } else {
      MuteOne(setup, before, ToolArgs(text));
      HistorySnoc(before, ToolArgs(text));
      StateArguments(setup, CallsOf(before), text);
    }
  }

  lemma StateArguments(setup: Setup, calls: seq<CallInput>, text: string)
    requires text != ""
    ensures StatesOf(setup, AddTo(calls, text)) == TakeArguments(setup, StatesOf(setup, calls), text)
  {
    hide Fold, AddFragment;
    if calls != [] { AddToLast(setup, calls, text); }
  }

  lemma FragmentMute(setup: Setup, before: seq<Action>, f: ToolFragment)
    ensures var (h, calls) := (FragmentActions(f), CallsAfter(setup, before));
      (AllMute(setup, before, h) <==> MuteFragments(setup, calls, [f])) &&
      CallsAfter(setup, before + h) == TakeFragment(setup, calls, f)
  {
    hide AddFragment, AllMute, CallsAfter, TakeArguments;
    var a := if f.id != "" then [ToolStart(f.id, f.name)] else [];
    var b := if f.arguments != "" then [ToolArgs(f.arguments)] else [];
    StartMute(setup, before, f);
    MuteAppend(setup, before, a, b);
    ArgumentsMute(setup, before + a, f.arguments);
    assert before + (a + b) == before + a + b;
    assert [f][1..] == [];
  }

  lemma StartMute(setup: Setup, before: seq<Action>, f: ToolFragment)
    ensures var (a, calls) := (if f.id != "" then [ToolStart(f.id, f.name)] else [], CallsAfter(setup, before));
      (AllMute(setup, before, a) <==> f.id == "") &&
      CallsAfter(setup, before + a) == if f.id != "" then calls + [NewCall(setup, f.id, f.name)] else calls
  {
    hide CallsOf, Fold;
    if f.id == "" {
      MuteMark(setup, before, []);
    } else {
      MuteOne(setup, before, ToolStart(f.id, f.name));
      HistorySnoc(before, ToolStart(f.id, f.name));
      NewState(setup, f.id, f.name);
    }
  }

  lemma {:induction false} FragmentsMute(setup: Setup, before: seq<Action>, fragments: seq<ToolFragment>)
    ensures var (h, calls) := (FragmentsActions(fragments), CallsAfter(setup, before));
      (AllMute(setup, before, h) <==> MuteFragments(setup, calls, fragments)) &&
      CallsAfter(setup, before + h) == TakeAll(setup, calls, fragments)
    decreases fragments
  {
    hide AddFragment, AllMute, CallsAfter, TakeFragment, FragmentActions;
    if fragments == [] {
      MuteMark(setup, before, []);
    } else {
      var (f, later) := (fragments[0], fragments[1..]);
      MuteAppend(setup, before, FragmentActions(f), FragmentsActions(later));
      FragmentMute(setup, before, f);
      FragmentsMute(setup, before + FragmentActions(f), later);
      assert before + (FragmentActions(f) + FragmentsActions(later)) ==
        before + FragmentActions(f) + FragmentsActions(later);
      assert [f][1..] == [] && [f][0] == f;
    }
  }

  lemma ToolsMute(setup: Setup, before: seq<Action>, fragments: seq<ToolFragment>)
    ensures var (h, calls) := (ToolActions(fragments), CallsAfter(setup, before));
      (AllMute(setup, before, h) <==> MuteFragments(setup, calls, fragments)) &&
      CallsAfter(setup, before + h) == TakeAll(setup, calls, fragments)
  {
    hide AllMute, CallsAfter, FragmentsActions, TakeFragment;
    if fragments == [] {
      MuteMark(setup, before, []);
    } else {
      MuteAppend(setup, before, [ToolBegin], FragmentsActions(fragments));
      MuteMark(setup, before, [ToolBegin]);
      FragmentsMute(setup, before + [ToolBegin], fragments);
      assert before + ([ToolBegin] + FragmentsActions(fragments)) == before + [ToolBegin] + FragmentsActions(fragments);
    }
  }

  lemma TalkMute(setup: Setup, before: seq<Action>, n: State, c: StreamChunk)
    requires n.parser.Valid() && c.choices != []
    ensures var (h, calls, fragments) := (Talk(n, c), CallsAfter(setup, before), c.choices[0].toolCalls);
      (AllMute(setup, before, h) <==>
         SpeechActions(Deliver(n, c.choices[0].content, c.choices[0].reasoning).1) == [] &&
         MuteFragments(setup, calls, fragments)) &&
      CallsAfter(setup, before + h) == TakeAll(setup, calls, fragments)
  {
    hide AllMute, CallsAfter, SpeechActions, ToolActions, MuteFragments, TakeAll, Deliver;
    var out := Deliver(n, c.choices[0].content, c.choices[0].reasoning).1;
    var (first, speech, tools) := ([Start(c.model)], SpeechActions(out), ToolActions(c.choices[0].toolCalls));
    MuteAppend(setup, before, first + speech, tools);
    MuteAppend(setup, before, first, speech);
    MuteMark(setup, before, first);
    SpeechMute(setup, before + first, out);
    assert before + (first + speech) == before + first + speech;
    ToolsMute(setup, before + (first + speech), c.choices[0].toolCalls);
    assert before + (first + speech + tools) == before + (first + speech) + tools;
  }

  lemma ChunkMute(setup: Setup, before: seq<Action>, n: State, c: StreamChunk)
    requires n.parser.Valid() && c.choices != []
    ensures var (h, calls, fragments) := (ChunkActions(n, c), CallsAfter(setup, before), c.choices[0].toolCalls);
      (AllMute(setup, before, h) <==>
         SpeechActions(Deliver(n, c.choices[0].content, c.choices[0].reasoning).1) == [] &&
         MuteFragments(setup, calls, fragments)) &&
      CallsAfter(setup, before + h) == TakeAll(setup, calls, fragments)
  {
    hide AllMute, CallsAfter, SpeechActions, ChunkActions, Talk, MuteFragments, TakeAll, Deliver, Unfinished;
    TalkUnfinished(n, c);
    TalkMute(setup, before, n, c);
    var last := [Finish(c.usage)];
    MuteAppend(setup, before, Talk(n, c), last);
    MuteMark(setup, before + Talk(n, c), last);
    assert before + (Talk(n, c) + last) == before + Talk(n, c) + last;
  }

  /** Nothing is said by these chunks, nor by the flush behind them. */
  predicate Quiet(n: State, chunks: seq<StreamChunk>)
    requires n.parser.Valid()
  {
    var (n1, out) := Run(n, AnthropicContent.Inputs(chunks));
    SpeechActions(out) == [] && !AO.Pending(n1, false)
  }

  lemma FlushSpeech(n: State)
    requires n.parser.Valid()
    ensures SpeechActions(Close(n).1) == if AO.Pending(n, false) then [Think(n.parser.tagBuffer)] else []
  {
    var block := n.parser.tagBuffer;
    assert [Reasoning(block)] + [] == [Reasoning(block)] && [Think(block)] + [] == [Think(block)];
    if n.parser.inBlock && block != "" {
      assert Visible([Block(block)], n.hasReasoning) == Shown(Block(block), n.hasReasoning) + [];
    }
  }

  lemma FlushMute(setup: Setup, before: seq<Action>, s: Translator)
    requires s.normalizer.parser.Valid()
    ensures AllMute(setup, before, FlushActions(s)) <==> !AO.Pending(s.normalizer, false)
  {
    hide AllMute, CallsAfter, SpeechActions, Close, AO.Pending;
    var speech := SpeechActions(Close(s.normalizer).1);
    FlushSpeech(s.normalizer);
    SpeechMute(setup, before, Close(s.normalizer).1);
    MuteAppend(setup, before, speech, [Finish(s.lastUsage)]);
    MuteMark(setup, before + speech, [Finish(s.lastUsage)]);
  }

  lemma {:induction false} RunMute(setup: Setup, before: seq<Action>, s: Translator, chunks: seq<StreamChunk>)
    requires s.normalizer.parser.Valid()
    ensures AllMute(setup, before, RunActions(setup, s, chunks)) <==>
      Quiet(s.normalizer, chunks) && MuteFragments(setup, CallsAfter(setup, before), AllFragments(chunks))
    decreases chunks
  {
    hide AllMute, CallsAfter, SpeechActions, ChunkActions, FlushActions, Deliver, Keepalive, AO.Pending, ActAll,
      AddFragment,
      TakeFragment;
    if chunks == [] {
      FlushMute(setup, before, s);
      assert SpeechActions([]) == [] by { NoSpeech(); }
    } else {
      var (c, next, rest) := (chunks[0], Process(setup, s, chunks[0]), chunks[1..]);
      if Bearing(c) {
        var choice := c.choices[0];
        var (acts, (n1, first)) :=
          (ChunkActions(s.normalizer, c), Deliver(s.normalizer, choice.content, choice.reasoning));
        ChunkMute(setup, before, s.normalizer, c);
        MuteAppend(setup, before, acts, RunActions(setup, next, rest));
        RunMute(setup, before + acts, next, rest);
        RunCons(s.normalizer, choice.content, choice.reasoning, AnthropicContent.Inputs(rest));
        SpeechAppend(first, Run(n1, AnthropicContent.Inputs(rest)).1);
        TakeAppend(setup, CallsAfter(setup, before), choice.toolCalls, AllFragments(rest));
      } else {
        RunMute(setup, before, next, rest);
        assert [] + RunActions(setup, next, rest) == RunActions(setup, next, rest);
        assert [] + AnthropicContent.Inputs(rest) == AnthropicContent.Inputs(rest);
        assert [] + AllFragments(rest) == AllFragments(rest);
      }
    }
  }

  lemma NoSpeech()
    ensures SpeechActions([]) == []
  {
  }

  /** The chunks behind the first finish send nothing. */
  predicate QuietBehind(setup: Setup, n: State, calls: seq<Call>, chunks: seq<StreamChunk>)
    requires n.parser.Valid()
  {
    HasEnd(chunks) ==>
      Quiet(Run(n, AnthropicContent.Inputs(Upto(chunks))).0, Behind(chunks)) &&
      MuteFragments(setup, TakeAll(setup, calls, AllFragments(Upto(chunks))), AllFragments(Behind(chunks)))
  }

  lemma {:induction false} BehindMute(setup: Setup, before: seq<Action>, s: Translator, chunks: seq<StreamChunk>)
    requires s.normalizer.parser.Valid()
    ensures var p := PartsOf(setup, s, chunks);
      AllMute(setup, before + p.before + [p.finish], p.after) <==>
        QuietBehind(setup, s.normalizer, CallsAfter(setup, before), chunks)
    decreases chunks
  {
    hide AllMute, CallsAfter, Quiet, HasEnd, Deliver, Keepalive, Talk, RunActions, ActAll, MuteFragments, TakeFragment,
      SpeechActions, Close;
    if chunks == [] {
      NoEnd();
      var p := PartsOf(setup, s, chunks);
      MuteMark(setup, before + p.before + [p.finish], []);
    } else {
      var (c, next, rest) := (chunks[0], Process(setup, s, chunks[0]), chunks[1..]);
      var tail := if Ends(c) then [] else Upto(rest);
      EndCons(chunks);
      UptoFirst(setup, s.normalizer, CallsAfter(setup, before), c, tail);
      if Bearing(c) {
        var talk := Talk(s.normalizer, c);
        TalkMute(setup, before, s.normalizer, c);
        if Ends(c) {
          MuteMark(setup, before + talk, [Finish(c.usage)]);
          RunMute(setup, before + talk + [Finish(c.usage)], next, rest);
        } else {
          BehindMute(setup, before + talk, next, rest);
          var p := PartsOf(setup, next, rest);
          assert before + talk + p.before == before + (talk + p.before);
        }
      } else {
        BehindMute(setup, before, next, rest);
      }
    }
  }

  /** The state and the calls after the chunks up to the first finish, from those after the first chunk. */
  lemma UptoFirst(setup: Setup, n: State, calls: seq<Call>, c: StreamChunk, tail: seq<StreamChunk>)
    requires n.parser.Valid()
    ensures var (inputs, fragments) := (AnthropicContent.Inputs([c] + tail), AllFragments([c] + tail));
      if Bearing(c)
      then
        Run(n, inputs).0 ==
          Run(Deliver(n, c.choices[0].content, c.choices[0].reasoning).0, AnthropicContent.Inputs(tail)).0 &&
        TakeAll(setup, calls, fragments) ==
          TakeAll(setup, TakeAll(setup, calls, c.choices[0].toolCalls), AllFragments(tail))
      else inputs == AnthropicContent.Inputs(tail) && fragments == AllFragments(tail)
  {
    hide Deliver, Keepalive, TakeFragment, AddFragment, MuteFragments;
    assert ([c] + tail)[1..] == tail && ([c] + tail)[0] == c;
    if Bearing(c) {
      RunCons(n, c.choices[0].content, c.choices[0].reasoning, AnthropicContent.Inputs(tail));
      TakeAppend(setup, calls, c.choices[0].toolCalls, AllFragments(tail));
    } else {
      assert [] + AnthropicContent.Inputs(tail) == AnthropicContent.Inputs(tail) &&
        [] + AllFragments(tail) == AllFragments(tail);
    }
  }

  lemma NoEnd()
    ensures !HasEnd([])
  {
  }

  /** Main result, exact, on what upstream sends: response.completed is the last event if and only if no chunk
      finishes the message, or behind the first one that does nothing is said, no block is left unfinished, no tool
      call is started, and arguments come before any call or lengthen no extracted input. */
  lemma CompletedLastOnChunks(setup: Setup, chunks: seq<StreamChunk>)
    ensures CompletedLast(Whole(setup, chunks).core.trace) <==>
      QuietBehind(setup, INITIAL.normalizer, [], chunks)
  {
    hide AllMute, QuietBehind, PartsOf, Run, Whole;
    var p := PartsOf(setup, INITIAL, chunks);
    CompletedLastIff(setup, chunks);
    BehindMute(setup, [], INITIAL, chunks);
    assert [] + p.before == p.before;
    NoStates(setup);
  }

  /** One chunk that is cut off inside a think block: the flush sends its text behind response.completed. */
  lemma CutOffThinking(setup: Setup, text: string, reason: string)
    requires text != "" && '<' !in text
    ensures var c := StreamChunk("", "", 0, [Choice(OPEN_THINK + text, "", [], Some(reason))], None);
      !CompletedLast(Whole(setup, [c]).core.trace)
  {
    hide Feed, Whole, CompletedLast, Run;
    var c := StreamChunk("", "", 0, [Choice(OPEN_THINK + text, "", [], Some(reason))], None);
    OpenBlock(text);
    assert Ends([c][0]) && HasEnd([c]);
    assert Upto([c]) == [c] && Behind([c]) == [] by { assert [c] + [] == [c]; }
    var input := Delta(OPEN_THINK + text, "");
    assert AnthropicContent.Inputs([c]) == [input] by { assert [input] + [] == [input]; }
    RunCons(INITIAL.normalizer, OPEN_THINK + text, "", []);
    assert [input] + [] == [input];
    RunNothing(State(Parser(true, text, ""), false));
    RunNothing(Deliver(INITIAL.normalizer, OPEN_THINK + text, "").0);
    CompletedLastOnChunks(setup, [c]);
  }

  lemma RunNothing(n: State)
    requires n.parser.Valid()
    ensures Run(n, []) == (n, [])
  {
  }
}
