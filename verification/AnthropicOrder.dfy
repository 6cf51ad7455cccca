/** The order that upstream has to keep, chunk by chunk, for every delta to fit its block (translator/stream.go). */
module AnthropicOrder {
  import opened Chunks
  import opened Options
  import opened Normalizer
  import opened StreamGuarantees
  import opened AnthropicStream
  import opened AnthropicTrace
  import opened AnthropicTyping
  import opened AnthropicContent

  /** Whether a tool call or a finish has come, and whether the tool call that came last is still open. */
  datatype Phase = Phase(shut: bool, open: bool)

  const BEGIN := Phase(false, false)

  predicate HasId(fragments: seq<ToolFragment>) {
    exists i :: 0 <= i < |fragments| && fragments[i].id != ""
  }

  /** Arguments come only while a tool call is open, or together with its id. */
  predicate Addressed(open: bool, fragments: seq<ToolFragment>)
    decreases fragments
  {
    fragments == [] ||
    ((fragments[0].arguments == "" || open || fragments[0].id != "") &&
     Addressed(open || fragments[0].id != "", fragments[1..]))
  }

  function NextPhase(q: Phase, c: StreamChunk): Phase {
    if !Bearing(c) then q
    else
      var (id, finish) := (HasId(c.choices[0].toolCalls), c.choices[0].finishReason.Some?);
      Phase(q.shut || id || finish, (q.open || id) && !finish)
  }

  function EndPhase(q: Phase, chunks: seq<StreamChunk>): Phase
    decreases chunks
  {
    if chunks == [] then q else EndPhase(NextPhase(q, chunks[0]), chunks[1..])
  }

  /** No text or reasoning comes in a chunk after the first tool call or finish, and arguments are addressed. */
  predicate Orderly(q: Phase, chunks: seq<StreamChunk>)
    decreases chunks
  {
    chunks == [] ||
    ((Bearing(chunks[0]) ==>
        (q.shut ==> chunks[0].choices[0].content == "" && chunks[0].choices[0].reasoning == "") &&
        Addressed(q.open, chunks[0].choices[0].toolCalls))
     && Orderly(NextPhase(q, chunks[0]), chunks[1..]))
  }

  /** After these emissions, was the last one that reached the client reasoning? */
  predicate SaidReasoning(before: bool, out: seq<Emission>, skipThinking: bool)
    decreases out
  {
    if out == [] then before
    else
      SaidReasoning(if out[0].text == "" || (out[0].Reasoning? && skipThinking) then before else out[0].Reasoning?,
                    out[1..], skipThinking)
  }

  /** An unfinished block that the flush will send as reasoning. */
  predicate Pending(n: State, skipThinking: bool) {
    n.parser.inBlock && n.parser.tagBuffer != "" && !n.hasReasoning && !skipThinking
  }

  // ---- The translator along an orderly run ----

  ghost predicate Fits(c: Core, q: Phase) {
    var kind := OpenKind(c.trace);
    WellTyped(c.trace) && c.blockOpen == kind.Some? && (q.open ==> q.shut && kind.Some? && kind.value.ToolBlock?) &&
    if q.shut then kind.Some? ==> kind.value.ToolBlock?
    else !c.finished && (kind.Some? ==> !kind.value.ToolBlock?) && (c.inThinking <==> kind == Some(ThinkingBlock))
  }

  /** What an action needs to come in order, and the phase after it. */
  predicate Allowed(q: Phase, a: Action) {
    ((a.Say? || a.Think?) ==> !q.shut) && (a.ToolArgs? ==> q.open)
  }

  function PhaseAfter(q: Phase, a: Action): Phase {
    if a.ToolStart? then Phase(true, true) else if a.Finish? then Phase(true, false) else q
  }

  lemma ActFits(c: Core, q: Phase, a: Action)
    requires Fits(c, q) && Allowed(q, a)
    ensures Fits(Act(c, a), PhaseAfter(q, a))
    ensures Act(c, a).inThinking == if a.Say? then false else if a.Think? then true else c.inThinking
  {
    hide WellTyped, OpenKind;
    CloseTyped(c);
    match a {
      case Start(id, model) => OpenSnoc(c.trace, MessageStart(id, model));
      case Say(text) =>
        var c1 := if c.inThinking then c.CloseOpen().(inThinking := false) else c;
        OpenTyped(c1, TextBlock);
        PutTyped(if c1.blockOpen then c1 else c1.Open(TextBlock), TextDelta(text));
      case Think(text) =>
        OpenTyped(c.CloseOpen(), ThinkingBlock);
        PutTyped(if c.inThinking then c else c.CloseOpen().Open(ThinkingBlock).(inThinking := true),
                 ThinkingDelta(text));
      case ToolStart(id, name) => OpenTyped(c.CloseOpen(), ToolBlock(id, name));
      case ToolArgs(text) => PutTyped(c, JsonDelta(text));
      case Finish(reason, usage) =>
        OpenSnoc(c.CloseOpen().trace, MessageDelta(reason, usage));
        OpenSnoc(c.CloseOpen().trace + [MessageDelta(reason, usage)], MessageStop);
    }
  }

  lemma {:induction false} SpeechFits(c: Core, q: Phase, out: seq<Emission>, skipThinking: bool)
    requires Fits(c, q) && (q.shut ==> out == [])
    ensures var d := ActAll(c, SpeechActions(out, skipThinking));
      Fits(d, q) && d.inThinking == SaidReasoning(c.inThinking, out, skipThinking)
    decreases out
  {
    hide Fits, Act, ActAll;
    ActOne(c);
    if out != [] {
      ActAppend(c, EmissionActions(out[0], skipThinking), SpeechActions(out[1..], skipThinking));
      if EmissionActions(out[0], skipThinking) != [] {
        ActFits(c, q, EmissionActions(out[0], skipThinking)[0]);
      }
      SpeechFits(ActAll(c, EmissionActions(out[0], skipThinking)), q, out[1..], skipThinking);
    }
  }

  lemma FragmentFits(c: Core, q: Phase, f: ToolFragment)
    requires Fits(c, q) && (f.arguments == "" || q.open || f.id != "")
    ensures var d := ActAll(c, FragmentActions(f));
      Fits(d, if f.id != "" then Phase(true, true) else q) && d.inThinking == c.inThinking
  {
    hide Fits, Act, ActAll;
    var (a, b) := (if f.id != "" then [ToolStart(f.id, f.name)] else [],
                   if f.arguments != "" then [ToolArgs(f.arguments)] else []);
    ActAppend(c, a, b);
    ActOne(c);
    if f.id != "" { ActFits(c, q, ToolStart(f.id, f.name)); }
    var c1 := ActAll(c, a);
    ActOne(c1);
    if f.arguments != "" { ActFits(c1, if f.id != "" then Phase(true, true) else q, ToolArgs(f.arguments)); }
  }

  lemma {:induction false} FragmentsFit(c: Core, q: Phase, fragments: seq<ToolFragment>)
    requires Fits(c, q) && Addressed(q.open, fragments)
    ensures var d := ActAll(c, ToolActions(fragments));
      Fits(d, if HasId(fragments) then Phase(true, true) else q) && d.inThinking == c.inThinking
    decreases fragments
  {
    hide Fits, Act, ActAll, FragmentActions;
    ActOne(c);
    if fragments != [] {
      var (f, later) := (fragments[0], fragments[1..]);
      var q1 := if f.id != "" then Phase(true, true) else q;
      ActAppend(c, FragmentActions(f), ToolActions(later));
      FragmentFits(c, q, f);
      FragmentsFit(ActAll(c, FragmentActions(f)), q1, later);
      IdsCons(fragments);
    }
  }

  lemma IdsCons(fragments: seq<ToolFragment>)
    requires fragments != []
    ensures HasId(fragments) <==> fragments[0].id != "" || HasId(fragments[1..])
  {
    if HasId(fragments[1..]) {
      var i :| 0 <= i < |fragments| - 1 && fragments[1..][i].id != "";
      assert fragments[i + 1].id != "";
    }
  }

  lemma ChunkFits(mode: Mode, n: State, c: Core, q: Phase, chunk: StreamChunk)
    requires n.parser.Valid() && Bearing(chunk) && Fits(c, q) && Addressed(q.open, chunk.choices[0].toolCalls)
    requires q.shut ==> chunk.choices[0].content == "" && chunk.choices[0].reasoning == ""
    ensures var d := ActAll(c, ChunkActions(mode, n, chunk));
      Fits(d, NextPhase(q, chunk)) &&
      d.inThinking ==
        SaidReasoning(c.inThinking, Deliver(n, chunk.choices[0].content, chunk.choices[0].reasoning).1,
                      mode.skipThinking)
  {
    hide Fits, Act, ActAll, SpeechActions, ToolActions, SaidReasoning, Deliver, HasId, Addressed, Keepalive;
    var choice := chunk.choices[0];
    Silence(n, choice);
    OpenIsShut(c, q);
    StagesFit(c, q, Start(chunk.id, chunk.model), Deliver(n, choice.content, choice.reasoning).1, mode.skipThinking,
              choice.toolCalls,
              if choice.finishReason.Some?
              then [Finish(mode.mapReason(choice.finishReason.value), chunk.usage)] else []);
  }

  /** The four stages of a chunk: its start, speech, tools, and finish if there is one. */
  lemma StagesFit(c: Core, q: Phase, start: Action, out: seq<Emission>, skipThinking: bool,
                  fragments: seq<ToolFragment>,
                  last: seq<Action>)
    requires start.Start? && |last| <= 1 && (last != [] ==> last[0].Finish?)
    requires Fits(c, q) && (q.shut ==> out == []) && Addressed(q.open, fragments)
    ensures var d := ActAll(c, [start] + SpeechActions(out, skipThinking) + ToolActions(fragments) + last);
      var q1 := if HasId(fragments) then Phase(true, true) else q;
      Fits(d, if last != [] then Phase(true, false) else q1) &&
      d.inThinking == SaidReasoning(c.inThinking, out, skipThinking)
  {
    hide Fits, Act, ActAll, SpeechActions, ToolActions, SaidReasoning, HasId, Addressed;
    var (first, speech, tools) := ([start], SpeechActions(out, skipThinking), ToolActions(fragments));
    ActAppend(c, first + speech + tools, last);
    ActAppend(c, first + speech, tools);
    ActAppend(c, first, speech);
    ActOne(c);
    ActFits(c, q, start);
    var c1 := ActAll(c, first);
    SpeechFits(c1, q, out, skipThinking);
    var c2 := ActAll(c1, speech);
    FragmentsFit(c2, q, fragments);
    var c3 := ActAll(c2, tools);
    ActOne(c3);
    if last != [] {
      assert last == [last[0]];
      ActFits(c3, if HasId(fragments) then Phase(true, true) else q, last[0]);
    }
  }

  lemma OpenIsShut(c: Core, q: Phase)
    requires Fits(c, q)
    ensures q.open ==> q.shut
  {
  }

  lemma Silence(n: State, choice: Choice)
    requires n.parser.Valid()
    ensures choice.content == "" && choice.reasoning == "" ==> Deliver(n, choice.content, choice.reasoning).1 == []
  {
  }

  lemma {:induction false} SaidAppend(before: bool, a: seq<Emission>, b: seq<Emission>, skipThinking: bool)
    ensures SaidReasoning(before, a + b, skipThinking) ==
      SaidReasoning(SaidReasoning(before, a, skipThinking), b, skipThinking)
    decreases a
  {
    if a == [] {
      assert a + b == b;
    } else {
      assert (a + b)[1..] == a[1..] + b;
      var next := if a[0].text == "" || (a[0].Reasoning? && skipThinking) then before else a[0].Reasoning?;
      SaidAppend(next, a[1..], b, skipThinking);
    }
  }

  lemma {:induction false} RunFits(mode: Mode, s: Translator, q: Phase, chunks: seq<StreamChunk>)
    requires s.normalizer.parser.Valid() && Fits(s.core, q) && Orderly(q, chunks)
    ensures var (s1, (n, out)) := (Chunked(mode, s, chunks), Run(s.normalizer, Inputs(chunks)));
      Fits(s1.core, EndPhase(q, chunks)) && s1.normalizer == n &&
      s1.core.inThinking == SaidReasoning(s.core.inThinking, out, mode.skipThinking)
    decreases chunks
  {
    hide Fits, ActAll, ChunkActions, Deliver, Keepalive, Addressed, NextPhase, SaidReasoning;
    if chunks == [] {
      SaidNothing(s.core.inThinking, mode.skipThinking);
    } else {
      var (c, next) := (chunks[0], Process(mode, s, chunks[0]));
      if Bearing(c) {
        var choice := c.choices[0];
        ChunkFits(mode, s.normalizer, s.core, q, c);
        RunFits(mode, next, NextPhase(q, c), chunks[1..]);
        var (n1, first) := Deliver(s.normalizer, choice.content, choice.reasoning);
        assert Inputs(chunks) == [Delta(choice.content, choice.reasoning)] + Inputs(chunks[1..]);
        assert ([Delta(choice.content, choice.reasoning)] + Inputs(chunks[1..]))[1..] == Inputs(chunks[1..]);
        SaidAppend(s.core.inThinking, first, Run(n1, Inputs(chunks[1..])).1, mode.skipThinking);
      } else {
        SamePhase(q, c);
        RunFits(mode, next, q, chunks[1..]);
        assert [] + Inputs(chunks[1..]) == Inputs(chunks[1..]);
      }
    }
  }

  lemma SaidNothing(before: bool, skipThinking: bool)
    ensures SaidReasoning(before, [], skipThinking) == before
  {
  }

  lemma SamePhase(q: Phase, c: StreamChunk)
    requires !Bearing(c)
    ensures NextPhase(q, c) == q
  {
  }

  // ---- The flush ----

  lemma FlushSpeech(n: State, skipThinking: bool)
    requires n.parser.Valid()
    ensures SpeechActions(Close(n).1, skipThinking) ==
      if Pending(n, skipThinking) then [Think(n.parser.tagBuffer)] else []
  {
    var block := n.parser.tagBuffer;
    assert [Reasoning(block)] + [] == [Reasoning(block)] && [Think(block)] + [] == [Think(block)];
    if n.parser.inBlock && block != "" {
      assert Visible([Block(block)], n.hasReasoning) == Shown(Block(block), n.hasReasoning) + [];
    }
  }

  /** Reasoning that comes too late is sent as if its block were still open. */
  lemma LateReasoning(c: Core, q: Phase, text: string)
    requires Fits(c, q)
    ensures WellTyped(Act(c, Think(text)).trace) <==> !(q.shut && c.inThinking)
  {
    hide WellTyped, OpenKind;
    CloseTyped(c);
    OpenTyped(c.CloseOpen(), ThinkingBlock);
    PutTyped(if c.inThinking then c else c.CloseOpen().Open(ThinkingBlock).(inThinking := true), ThinkingDelta(text));
  }

  lemma FinishTyped(c: Core, reason: string, usage: Option<Usage>)
    ensures WellTyped(Act(c, Finish(reason, usage)).trace) <==> WellTyped(c.trace)
  {
    hide WellTyped, OpenKind;
    CloseTyped(c);
    OpenSnoc(c.CloseOpen().trace, MessageDelta(reason, usage));
    OpenSnoc(c.CloseOpen().trace + [MessageDelta(reason, usage)], MessageStop);
  }

  lemma FlushTyped(mode: Mode, s: Translator, q: Phase)
    requires s.normalizer.parser.Valid() && Fits(s.core, q)
    ensures WellTyped(Flushed(mode, s).core.trace) <==>
      !(q.shut && s.core.inThinking && Pending(s.normalizer, mode.skipThinking))
  {
    hide WellTyped, OpenKind, Act, Close, Pending;
    var (speech, end) := (SpeechActions(Close(s.normalizer).1, mode.skipThinking), Finish("end_turn", s.lastUsage));
    FlushSpeech(s.normalizer, mode.skipThinking);
    ActSnoc(s.core, speech, end);
    ActOne(s.core);
    FinishTyped(ActAll(s.core, speech), "end_turn", s.lastUsage);
    LateReasoning(s.core, q, s.normalizer.parser.tagBuffer);
  }

  lemma NothingFits()
    ensures Fits(EMPTY, BEGIN)
  {
  }

  /** Main result, exact, on what upstream sends. In a run whose chunks keep the order, every delta fits the kind of the
      block it goes into unless all of this holds: a tool call or a finish has come, the last thing said before was
      reasoning, and a thinking block is still unfinished at the end. In particular whenever no block is unfinished. */
  lemma OrderlyTypedIff(mode: Mode, chunks: seq<StreamChunk>)
    requires Orderly(BEGIN, chunks)
    ensures var (n, out) := Run(State(START, false), Inputs(chunks));
      WellTyped(Whole(mode, chunks).core.trace) <==>
        !(EndPhase(BEGIN, chunks).shut && SaidReasoning(false, out, mode.skipThinking) && Pending(n, mode.skipThinking))
  {
    hide WellTyped, Fits, Orderly, EndPhase, SaidReasoning, Pending, Run, Flushed, Chunked, Inputs;
    NothingFits();
    RunFits(mode, INITIAL, BEGIN, chunks);
    FlushTyped(mode, Chunked(mode, INITIAL, chunks), EndPhase(BEGIN, chunks));
  }

  predicate Shuts(c: StreamChunk) {
    Bearing(c) && (HasId(c.choices[0].toolCalls) || c.choices[0].finishReason.Some?)
  }

  /** The phase at the end, read off the chunks: is there a tool call or a finish at all? */
  lemma {:induction false} ShutIff(q: Phase, chunks: seq<StreamChunk>)
    ensures EndPhase(q, chunks).shut <==> q.shut || exists i :: 0 <= i < |chunks| && Shuts(chunks[i])
    decreases chunks
  {
    hide HasId, Keepalive;
    if chunks != [] {
      ShutIff(NextPhase(q, chunks[0]), chunks[1..]);
      assert forall i :: 1 <= i < |chunks| ==> chunks[i] == chunks[1..][i - 1];
      assert forall i :: 0 <= i < |chunks| - 1 ==> chunks[1..][i] == chunks[i + 1];
    }
  }
}
