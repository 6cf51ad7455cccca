/** StreamTranslator (translator/stream.go): everything a client is due reaches it, once and in order. */
module AnthropicSequence {
  import opened Chunks
  import opened Options
  import opened Normalizer
  import opened StreamGuarantees
  import opened AnthropicStream
  import opened AnthropicTrace
  import opened AnthropicTyping
  import opened Heard

  function Sees(e: SseEvent): seq<Seen> {
    match e
    case BlockStart(_, ToolBlock(id, name)) => [Tool(id, name)]
    case BlockDelta(_, TextDelta(s)) => [Said(s)]
    case BlockDelta(_, ThinkingDelta(s)) => [Thought(s)]
    case BlockDelta(_, JsonDelta(s)) => [Args(s)]
    case _ => []
  }

  /** The tool starts and the deltas of a trace. */
  function SeenIn(t: seq<SseEvent>): seq<Seen> {
    if t == [] then [] else SeenIn(t[..|t| - 1]) + Sees(t[|t| - 1])
  }

  function Shows(a: Action): seq<Seen> {
    match a
    case Say(s) => [Said(s)]
    case Think(s) => [Thought(s)]
    case ToolStart(id, name) => [Tool(id, name)]
    case ToolArgs(s) => [Args(s)]
    case _ => []
  }

  function ShownBy(h: seq<Action>): seq<Seen> {
    if h == [] then [] else Shows(h[0]) + ShownBy(h[1..])
  }

  lemma SeenSnoc(t: seq<SseEvent>, e: SseEvent)
    ensures SeenIn(t + [e]) == SeenIn(t) + Sees(e)
  {
    assert (t + [e])[..|t|] == t;
  }

  lemma EmitSeen(c: Core, e: SseEvent)
    ensures SeenIn(c.Emit(e).trace) == SeenIn(c.trace) + Sees(e)
  {
    SeenSnoc(c.trace, e);
  }

  lemma CloseSeen(c: Core)
    ensures SeenIn(c.CloseOpen().trace) == SeenIn(c.trace)
  {
    EmitSeen(c, BlockStop(c.blockIndex));
    assert SeenIn(c.trace) + [] == SeenIn(c.trace);
  }

  lemma ActSeen(c: Core, a: Action)
    ensures SeenIn(Act(c, a).trace) == SeenIn(c.trace) + Shows(a)
  {
    hide SeenIn;
    var was := SeenIn(c.trace);
    assert was + [] == was;
    CloseSeen(c);
    var closed := c.CloseOpen();
    match a {
      case Start(id, model) => EmitSeen(c, MessageStart(id, model));
      case Say(text) =>
        var c1 := if c.inThinking then closed.(inThinking := false) else c;
        EmitSeen(c1, BlockStart(c1.blockIndex, TextBlock));
        var c2 := if c1.blockOpen then c1 else c1.Open(TextBlock);
        EmitSeen(c2, BlockDelta(c2.blockIndex, TextDelta(text)));
      case Think(text) =>
        EmitSeen(closed, BlockStart(closed.blockIndex, ThinkingBlock));
        var c2 := if c.inThinking then c else closed.Open(ThinkingBlock).(inThinking := true);
        EmitSeen(c2, BlockDelta(c2.blockIndex, ThinkingDelta(text)));
      case ToolStart(id, name) => EmitSeen(closed, BlockStart(closed.blockIndex, ToolBlock(id, name)));
      case ToolArgs(text) => EmitSeen(c, BlockDelta(c.blockIndex, JsonDelta(text)));
      case Finish(reason, usage) =>
        EmitSeen(closed, MessageDelta(reason, usage));
        EmitSeen(closed.Emit(MessageDelta(reason, usage)), MessageStop);
    }
  }

  lemma {:induction false} ShownAppend(a: seq<Action>, b: seq<Action>)
    ensures ShownBy(a + b) == ShownBy(a) + ShownBy(b)
  {
    if a == [] {
      assert a + b == b;
    } else {
      assert (a + b)[1..] == a[1..] + b;
      ShownAppend(a[1..], b);
    }
  }

  lemma {:induction false} AllSeen(c: Core, h: seq<Action>)
    ensures SeenIn(ActAll(c, h).trace) == SeenIn(c.trace) + ShownBy(h)
    decreases |h|
  {
    hide SeenIn, Act, Shows;
    if h != [] {
      var n := |h| - 1;
      AllSeen(c, h[..n]);
      ActSeen(ActAll(c, h[..n]), h[n]);
      assert h == h[..n] + [h[n]];
      ShownAppend(h[..n], [h[n]]);
      assert [h[n]][1..] == [] && Shows(h[n]) + [] == Shows(h[n]);
      assert SeenIn(c.trace) + ShownBy(h[..n]) + Shows(h[n]) == SeenIn(c.trace) + (ShownBy(h[..n]) + Shows(h[n]));
    } else {
      assert SeenIn(c.trace) + [] == SeenIn(c.trace);
    }
  }

  lemma {:induction false} SpeechShown(out: seq<Emission>, skipThinking: bool)
    ensures ShownBy(SpeechActions(out, skipThinking)) == HeardBy(out, skipThinking)
  {
    if out != [] {
      SpeechShown(out[1..], skipThinking);
      ShownAppend(EmissionActions(out[0], skipThinking), SpeechActions(out[1..], skipThinking));
      OneShown(out[0], skipThinking);
    }
  }

  lemma OneShown(e: Emission, skipThinking: bool)
    ensures ShownBy(EmissionActions(e, skipThinking)) ==
      if e.text == "" || (e.Reasoning? && skipThinking) then []
      else if e.Reasoning? then [Thought(e.text)] else [Said(e.text)]
  {
    var h := EmissionActions(e, skipThinking);
    if h != [] { assert h[1..] == [] && Shows(h[0]) + [] == Shows(h[0]); }
  }

  lemma {:induction false} ToolsShown(fragments: seq<ToolFragment>)
    ensures ShownBy(ToolActions(fragments)) == ToolsSent(fragments)
  {
    if fragments != [] {
      ToolsShown(fragments[1..]);
      ShownAppend(FragmentActions(fragments[0]), ToolActions(fragments[1..]));
      FragmentShown(fragments[0]);
    }
  }

  lemma FragmentShown(f: ToolFragment)
    ensures ShownBy(FragmentActions(f)) ==
      (if f.id != "" then [Tool(f.id, f.name)] else []) + (if f.arguments != "" then [Args(f.arguments)] else [])
  {
    var a := if f.id != "" then [ToolStart(f.id, f.name)] else [];
    var b := if f.arguments != "" then [ToolArgs(f.arguments)] else [];
    ShownAppend(a, b);
    if a != [] { assert a[1..] == [] && Shows(a[0]) + [] == Shows(a[0]); }
    if b != [] { assert b[1..] == [] && Shows(b[0]) + [] == Shows(b[0]); }
  }

  lemma OneStep(n: State, content: string, reasoning: string)
    requires n.parser.Valid()
    ensures Run(n, [Delta(content, reasoning)]) == Deliver(n, content, reasoning)
    ensures Run(n, [End]) == Close(n)
  {
    hide Deliver, Close;
    RunCons(n, content, reasoning, []);
    var d := Delta(content, reasoning);
    assert [d] + [] == [d] && [End][1..] == [];
    var (out, rest) := (Deliver(n, content, reasoning).1, Close(n).1);
    assert out + [] == out && rest + [] == rest;
  }

  lemma ChunkShown(mode: Mode, n: State, c: StreamChunk)
    requires n.parser.Valid() && c.choices != []
    ensures ShownBy(ChunkActions(mode, n, c)) ==
      HeardBy(Deliver(n, c.choices[0].content, c.choices[0].reasoning).1, mode.skipThinking)
      + ToolsSent(c.choices[0].toolCalls)
  {
    hide SpeechActions, ToolActions, HeardBy, ToolsSent, ShownBy, Deliver;
    var choice := c.choices[0];
    var out := Deliver(n, choice.content, choice.reasoning).1;
    var (first, speech, tools) :=
      ([Start(c.id, c.model)], SpeechActions(out, mode.skipThinking), ToolActions(choice.toolCalls));
    var last := if choice.finishReason.Some? then [Finish(mode.mapReason(choice.finishReason.value), c.usage)] else [];
    ShownAppend(first + speech + tools, last);
    ShownAppend(first + speech, tools);
    ShownAppend(first, speech);
    MarksShown(c.id, c.model, last);
    SpeechShown(out, mode.skipThinking);
    ToolsShown(choice.toolCalls);
    assert [] + HeardBy(out, mode.skipThinking) == HeardBy(out, mode.skipThinking);
    var all := HeardBy(out, mode.skipThinking) + ToolsSent(choice.toolCalls);
    assert all + [] == all;
  }

  lemma MarksShown(id: string, model: string, last: seq<Action>)
    requires |last| <= 1 && (last != [] ==> last[0].Finish?)
    ensures ShownBy([Start(id, model)]) == [] && ShownBy(last) == []
  {
  }

  lemma {:induction false} RunShown(mode: Mode, s: Translator, chunks: seq<StreamChunk>)
    requires s.normalizer.parser.Valid()
    ensures ShownBy(RunActions(mode, s, chunks)) == DueIn(s.normalizer, chunks, mode.skipThinking)
    decreases chunks
  {
    hide ShownBy, ChunkActions, SpeechActions, HeardBy, ToolsSent, Deliver, Close, Keepalive, Run, ActAll;
    if chunks == [] {
      var speech := SpeechActions(Close(s.normalizer).1, mode.skipThinking);
      OneStep(s.normalizer, "", "");
      SpeechShown(Close(s.normalizer).1, mode.skipThinking);
      ShownAppend(speech, [Finish("end_turn", s.lastUsage)]);
      MarksShown("", "", [Finish("end_turn", s.lastUsage)]);
      assert ShownBy(speech) + [] == ShownBy(speech);
    } else {
      var (c, next, rest) := (chunks[0], Process(mode, s, chunks[0]), chunks[1..]);
      RunShown(mode, next, rest);
      if Bearing(c) {
        OneStep(s.normalizer, c.choices[0].content, c.choices[0].reasoning);
        ChunkShown(mode, s.normalizer, c);
        ShownAppend(ChunkActions(mode, s.normalizer, c), RunActions(mode, next, rest));
      } else {
        assert [] + RunActions(mode, next, rest) == RunActions(mode, next, rest);
      }
    }
  }

  /** Main result, for every run: the client sees each text and each thought of the normaliser, each tool start and each
      argument fragment, once and in this order: chunk by chunk, speech before tools, the flush last. */
  lemma InSequence(mode: Mode, chunks: seq<StreamChunk>)
    ensures SeenIn(Whole(mode, chunks).core.trace) == DueIn(State(START, false), chunks, mode.skipThinking)
  {
    hide SeenIn, ShownBy, RunActions, ActAll, Chunked, DueIn;
    RunIsActions(mode, INITIAL, chunks);
    AllSeen(EMPTY, RunActions(mode, INITIAL, chunks));
    RunShown(mode, INITIAL, chunks);
    NothingSeen();
    assert [] + DueIn(State(START, false), chunks, mode.skipThinking) ==
      DueIn(State(START, false), chunks, mode.skipThinking);
  }

  lemma NothingSeen()
    ensures SeenIn(EMPTY.trace) == []
  {
  }
}
