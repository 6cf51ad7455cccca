/** ResponsesStreamTranslator (translator/responses_stream.go): texts, reasoning and tools reach the client once and in
    order. */
module ResponsesSequence {
  import opened Strings
  import opened Chunks
  import opened Options
  import opened Normalizer
  import opened StreamGuarantees
  import opened ResponsesStream
  import opened ResponsesSnapshot
  import opened Heard
  import AnthropicContent
  import AnthropicSequence

  function Sees(e: ResponseEvent): seq<Seen> {
    match e
    case TextDelta(_, _, s) => [Said(s)]
    case ReasoningDelta(_, _, s) => [Thought(s)]
    case ItemAdded(_, FunctionCall(id, name, _)) => [Tool(id, name)]
    case ItemAdded(_, CustomCall(id, name, _)) => [Tool(id, name)]
    case _ => []
  }

  /** The texts, the reasoning and the tool starts of a trace. */
  function SeenIn(t: seq<ResponseEvent>): seq<Seen> {
    if t == [] then [] else SeenIn(t[..|t| - 1]) + Sees(t[|t| - 1])
  }

  function Shows(a: Action): seq<Seen> {
    match a
    case Say(s) => [Said(s)]
    case Think(s) => [Thought(s)]
    case ToolStart(id, name) => [Tool(id, name)]
    case _ => []
  }

  function ShownBy(h: seq<Action>): seq<Seen> {
    if h == [] then [] else Shows(h[0]) + ShownBy(h[1..])
  }

  /** All but the arguments, which go through the extraction of custom tools. */
  function NoArgs(seen: seq<Seen>): seq<Seen> {
    if seen == [] then [] else (if seen[0].Args? then [] else [seen[0]]) + NoArgs(seen[1..])
  }

  lemma {:induction false} NoArgsAppend(a: seq<Seen>, b: seq<Seen>)
    ensures NoArgs(a + b) == NoArgs(a) + NoArgs(b)
  {
    if a == [] {
      assert a + b == b;
    } else {
      assert (a + b)[1..] == a[1..] + b;
      NoArgsAppend(a[1..], b);
    }
  }

  lemma SeenSnoc(t: seq<ResponseEvent>, e: ResponseEvent)
    ensures SeenIn(t + [e]) == SeenIn(t) + Sees(e)
    ensures Sees(e) == [] ==> SeenIn(t + [e]) == SeenIn(t)
  {
    assert (t + [e])[..|t|] == t;
    assert SeenIn(t) + [] == SeenIn(t);
  }

  lemma {:induction false} SeenAppendQuiet(t: seq<ResponseEvent>, u: seq<ResponseEvent>)
    requires forall i :: 0 <= i < |u| ==> Sees(u[i]) == []
    ensures SeenIn(t + u) == SeenIn(t)
    decreases |u|
  {
    hide Sees;
    if u == [] {
      assert t + u == t;
    } else {
      var n := |u| - 1;
      assert t + u == t + u[..n] + [u[n]];
      SeenAppendQuiet(t, u[..n]);
      SeenSnoc(t + u[..n], u[n]);
    }
  }

  lemma AddMessageSeen(c: Core)
    ensures SeenIn(AddMessage(c).trace) == SeenIn(c.trace)
  {
    hide SeenIn;
    var e := ItemAdded(c.outputIndex, Message(""));
    SeenSnoc(c.trace, e);
    SeenSnoc(c.trace + [e], PartAdded(c.outputIndex, c.contentIndex));
  }

  lemma SaySeen(c: Core, text: string)
    ensures SeenIn(HandleTextCore(c, text).trace) == SeenIn(c.trace) + [Said(text)]
  {
    hide SeenIn;
    SeenSnoc(c.trace, ReasoningDone(c.outputIndex, c.contentIndex));
    var c1 := CloseReasoning(c);
    AddMessageSeen(c1.(hasText := true));
    var c2 := if c1.hasText then c1 else AddMessage(c1.(hasText := true));
    SeenSnoc(c2.trace, TextDelta(c2.outputIndex, c2.contentIndex, text));
  }

  lemma ThinkSeen(c: Core, text: string)
    ensures SeenIn(HandleReasoningCore(c, text).trace) == SeenIn(c.trace) + [Thought(text)]
  {
    hide SeenIn;
    AddMessageSeen(c.(inReasoning := true));
    var c1 := if c.inReasoning then c else AddMessage(c.(inReasoning := true));
    SeenSnoc(c1.trace, ReasoningDelta(c1.outputIndex, c1.contentIndex, text));
  }

  lemma {:induction false} CloseCallsQuiet(setup: Setup, calls: seq<Call>, offset: nat)
    ensures forall i :: 0 <= i < |CloseCalls(setup, calls, offset)| ==> Sees(CloseCalls(setup, calls, offset)[i]) == []
    decreases |calls|
  {
    if calls != [] { CloseCallsQuiet(setup, calls[..|calls| - 1], offset); }
  }

  lemma FinishSeen(setup: Setup, c: Core, usage: Option<Usage>)
    ensures SeenIn(FinishCore(setup, c, usage).trace) == SeenIn(c.trace)
  {
    hide SeenIn, CloseCalls, BuildOutput;
    var c1 := StopReasoning(CloseText(c));
    ClosingSeen(c);
    CloseCallsQuiet(setup, c.calls, c.Offset());
    SeenAppendQuiet(c1.trace, CloseCalls(setup, c.calls, c.Offset()));
    SeenSnoc(c1.trace + CloseCalls(setup, c.calls, c.Offset()), Completed(c.model, BuildOutput(setup, c), usage));
  }

  lemma ClosingSeen(c: Core)
    ensures SeenIn(StopReasoning(CloseText(c)).trace) == SeenIn(c.trace)
  {
    hide SeenIn;
    var (i, j) := (c.outputIndex, c.contentIndex);
    var e1 := TextDone(i, j, c.textAccum);
    var e2 := PartDone(i, j, c.textAccum);
    SeenSnoc(c.trace, e1);
    SeenSnoc(c.trace + [e1], e2);
    SeenSnoc(c.trace + [e1] + [e2], ItemDone(i, Message(c.textAccum)));
    var d := CloseText(c);
    SeenSnoc(d.trace, ReasoningDone(d.outputIndex, d.contentIndex));
  }

  lemma ArgumentsSeen(setup: Setup, c: Core, text: string)
    ensures SeenIn(ToolArguments(setup, c, text).trace) == SeenIn(c.trace)
  {
    hide SeenIn, AddFragment;
    var t := ToolArguments(setup, c, text).trace;
    if t != c.trace {
      assert t == c.trace + [t[|c.trace|]];
      SeenSnoc(c.trace, t[|c.trace|]);
    }
  }

  lemma ActSeen(setup: Setup, c: Core, a: Action)
    ensures SeenIn(Act(setup, c, a).trace) == SeenIn(c.trace) + Shows(a)
  {
    hide SeenIn, HandleTextCore, HandleReasoningCore, FinishCore, ToolArguments;
    assert SeenIn(c.trace) + [] == SeenIn(c.trace);
    match a {
      case Start(model) => SeenSnoc(c.trace, Created(model));
      case Say(text) => SaySeen(c, text);
      case Think(text) => ThinkSeen(c, text);
      case ToolBegin =>
      case ToolStart(id, name) =>
        var item := if name in setup.customTools then CustomCall(id, name, "") else FunctionCall(id, name, "");
        SeenSnoc(c.trace, ItemAdded(|c.calls| + c.Offset(), item));
      case ToolArgs(text) => ArgumentsSeen(setup, c, text);
      case Finish(usage) => FinishSeen(setup, c, usage);
    }
  }

  lemma {:induction false} ShownAppend(a: seq<Action>, b: seq<Action>)
    ensures ShownBy(a + b) == ShownBy(a) + ShownBy(b)
  {
    if a == [] {
      assert a + b == b;
    } else {
      assert (a + b)[1..] == a[1..] + b;
      ShownAppend(a[1..], b);
    }
  }

  lemma {:induction false} AllSeenIn(setup: Setup, c: Core, h: seq<Action>)
    ensures SeenIn(ActAll(setup, c, h).trace) == SeenIn(c.trace) + ShownBy(h)
    decreases |h|
  {
    hide SeenIn, Act, Shows;
    if h != [] {
      var n := |h| - 1;
      AllSeenIn(setup, c, h[..n]);
      ActSeen(setup, ActAll(setup, c, h[..n]), h[n]);
      assert h == h[..n] + [h[n]];
      ShownAppend(h[..n], [h[n]]);
      assert [h[n]][1..] == [] && Shows(h[n]) + [] == Shows(h[n]);
      assert SeenIn(c.trace) + ShownBy(h[..n]) + Shows(h[n]) == SeenIn(c.trace) + (ShownBy(h[..n]) + Shows(h[n]));
    } else {
      assert SeenIn(c.trace) + [] == SeenIn(c.trace);
    }
  }

  lemma {:induction false} SpeechShown(out: seq<Emission>)
    ensures ShownBy(SpeechActions(out)) == HeardBy(out, false) && NoArgs(HeardBy(out, false)) == HeardBy(out, false)
  {
    if out != [] {
      SpeechShown(out[1..]);
      ShownAppend(EmissionActions(out[0]), SpeechActions(out[1..]));
      OneShown(out[0]);
      NoArgsAppend(if out[0].text == "" then [] else OneSeen(out[0]), HeardBy(out[1..], false));
    }
  }

  function OneSeen(e: Emission): seq<Seen> {
    if e.Reasoning? then [Thought(e.text)] else [Said(e.text)]
  }

  lemma OneShown(e: Emission)
    ensures ShownBy(EmissionActions(e)) == if e.text == "" then [] else OneSeen(e)
    ensures NoArgs(OneSeen(e)) == OneSeen(e) && NoArgs([]) == []
  {
    var (h, seen) := (EmissionActions(e), OneSeen(e));
    if h != [] { assert h[1..] == [] && Shows(h[0]) + [] == Shows(h[0]); }
    assert seen[1..] == [] && [seen[0]] + [] == seen;
  }

  lemma {:induction false} FragmentsShown(fragments: seq<ToolFragment>)
    ensures ShownBy(FragmentsActions(fragments)) == NoArgs(ToolsSent(fragments))
  {
    if fragments != [] {
      var f := fragments[0];
      FragmentsShown(fragments[1..]);
      ShownAppend(FragmentActions(f), FragmentsActions(fragments[1..]));
      FragmentShown(f);
      var a := if f.id != "" then [Tool(f.id, f.name)] else [];
      var b := if f.arguments != "" then [Args(f.arguments)] else [];
      NoArgsAppend(a + b, ToolsSent(fragments[1..]));
    }
  }

  lemma FragmentShown(f: ToolFragment)
    ensures ShownBy(FragmentActions(f)) ==
      NoArgs((if f.id != "" then [Tool(f.id, f.name)] else []) +
      (if f.arguments != "" then [Args(f.arguments)] else []))
  {
    var (a, b) := (if f.id != "" then [ToolStart(f.id, f.name)] else [],
                   if f.arguments != "" then [ToolArgs(f.arguments)] else []);
    var (x, y) := (if f.id != "" then [Tool(f.id, f.name)] else [], if f.arguments != "" then [Args(f.arguments)]
      else []);
    ShownAppend(a, b);
    NoArgsAppend(x, y);
    if a != [] { assert a[1..] == [] && x[1..] == [] && Shows(a[0]) + [] == Shows(a[0]) && [x[0]] + [] == x; }
    if b != [] { assert b[1..] == [] && y[1..] == []; }
  }

  lemma ChunkShown(n: State, c: StreamChunk)
    requires n.parser.Valid() && c.choices != []
    ensures ShownBy(ChunkActions(n, c)) ==
      NoArgs(HeardBy(Deliver(n, c.choices[0].content, c.choices[0].reasoning).1, false)
             + ToolsSent(c.choices[0].toolCalls))
  {
    hide SpeechActions, FragmentsActions, HeardBy, ToolsSent, ShownBy, NoArgs, Deliver;
    var choice := c.choices[0];
    var out := Deliver(n, choice.content, choice.reasoning).1;
    var (first, speech, tools) := ([Start(c.model)], SpeechActions(out), ToolActions(choice.toolCalls));
    var last := if choice.finishReason.Some? then [Finish(c.usage)] else [];
    ShownAppend(first + speech + tools, last);
    ShownAppend(first + speech, tools);
    ShownAppend(first, speech);
    MarksShown(c.model, last);
    SpeechShown(out);
    FragmentsShown(choice.toolCalls);
    ShownAppend([ToolBegin], FragmentsActions(choice.toolCalls));
    NoFragments();
    NoArgsAppend(HeardBy(out, false), ToolsSent(choice.toolCalls));
    assert [] + HeardBy(out, false) == HeardBy(out, false);
    assert [] + NoArgs(ToolsSent(choice.toolCalls)) == NoArgs(ToolsSent(choice.toolCalls));
    var all := HeardBy(out, false) + NoArgs(ToolsSent(choice.toolCalls));
    assert all + [] == all;
  }

  lemma NoFragments()
    ensures ShownBy([]) == [] && NoArgs(ToolsSent([])) == []
  {
  }

  lemma MarksShown(model: string, last: seq<Action>)
    requires |last| <= 1 && (last != [] ==> last[0].Finish?)
    ensures ShownBy([Start(model)]) == [] && ShownBy(last) == [] && ShownBy([ToolBegin]) == []
  {
  }

  lemma {:induction false} RunShown(setup: Setup, s: Translator, chunks: seq<StreamChunk>)
    requires s.normalizer.parser.Valid()
    ensures ShownBy(RunActions(setup, s, chunks)) == NoArgs(DueIn(s.normalizer, chunks, false))
    decreases chunks
  {
    hide ShownBy, ChunkActions, SpeechActions, HeardBy, ToolsSent, NoArgs, Deliver, Close, Keepalive, Run, ActAll;
    if chunks == [] {
      var speech := SpeechActions(Close(s.normalizer).1);
      AnthropicSequence.OneStep(s.normalizer, "", "");
      SpeechShown(Close(s.normalizer).1);
      ShownAppend(speech, [Finish(s.lastUsage)]);
      MarksShown("", [Finish(s.lastUsage)]);
      assert ShownBy(speech) + [] == ShownBy(speech);
    } else {
      var (c, next, rest) := (chunks[0], Process(setup, s, chunks[0]), chunks[1..]);
      RunShown(setup, next, rest);
      if Bearing(c) {
        var choice := c.choices[0];
        AnthropicSequence.OneStep(s.normalizer, choice.content, choice.reasoning);
        ChunkShown(s.normalizer, c);
        ShownAppend(ChunkActions(s.normalizer, c), RunActions(setup, next, rest));
        NoArgsAppend(HeardBy(Deliver(s.normalizer, choice.content, choice.reasoning).1, false) +
        ToolsSent(choice.toolCalls),
                     DueIn(next.normalizer, rest, false));
      } else {
        assert [] + RunActions(setup, next, rest) == RunActions(setup, next, rest);
      }
    }
  }

  /** Main result, for every run: the client sees each text and each piece of reasoning of the normaliser and each tool
      start, once and in this order: chunk by chunk, speech before tools, the flush last. */
  lemma InSequence(setup: Setup, chunks: seq<StreamChunk>)
    ensures SeenIn(Whole(setup, chunks).core.trace) == NoArgs(DueIn(State(START, false), chunks, false))
  {
    hide SeenIn, ShownBy, RunActions, ActAll, Chunked, DueIn, NoArgs;
    RunIsActions(setup, INITIAL, chunks);
    AllSeenIn(setup, EMPTY, RunActions(setup, INITIAL, chunks));
    RunShown(setup, INITIAL, chunks);
    NothingSeen();
    var due := NoArgs(DueIn(State(START, false), chunks, false));
    assert [] + due == due;
  }

  lemma NothingSeen()
    ensures SeenIn(EMPTY.trace) == []
  {
  }

  lemma {:induction false} NoArgsText(seen: seq<Seen>)
    ensures TextIn(NoArgs(seen)) == TextIn(seen) && ThoughtIn(NoArgs(seen)) == ThoughtIn(seen)
  {
    if seen != [] {
      NoArgsText(seen[1..]);
      if seen[0].Args? {
        assert NoArgs(seen) == NoArgs(seen[1..]);
      } else {
        assert NoArgs(seen)[1..] == NoArgs(seen[1..]);
      }
    }
  }

  /** Main result, for every run: the text deltas of the whole trace, joined, are the content of the normaliser, and the
      reasoning deltas are its reasoning. */
  lemma Conservation(setup: Setup, chunks: seq<StreamChunk>)
    ensures var (seen, out) :=
        (SeenIn(Whole(setup, chunks).core.trace), Run(State(START, false), AnthropicContent.Inputs(chunks) + [End]).1);
      TextIn(seen) == Concat(Contents(out)) && ThoughtIn(seen) == Concat(Reasonings(out))
  {
    hide SeenIn, Whole, DueIn, NoArgs, TextIn, ThoughtIn, Run, Concat;
    InSequence(setup, chunks);
    NoArgsText(DueIn(State(START, false), chunks, false));
    DueText(State(START, false), chunks, false);
  }
}
