/** What the deltas of StreamTranslator carry: conservation for every input, and when deltas fit their blocks. */
module AnthropicContent {
  import opened Strings
  import opened Chunks
  import opened Options
  import opened Normalizer
  import opened StreamGuarantees
  import opened AnthropicStream
  import opened AnthropicTrace

  // ---- Conservation ----

  datatype Channel = TextChannel | ThinkingChannel | JsonChannel

  function PartOn(part: Part, ch: Channel): string {
    match part
    case TextDelta(s) => if ch.TextChannel? then s else ""
    case ThinkingDelta(s) => if ch.ThinkingChannel? then s else ""
    case JsonDelta(s) => if ch.JsonChannel? then s else ""
  }

  /** The deltas of one kind, concatenated. */
  function Carried(t: seq<SseEvent>, ch: Channel): string {
    if t == [] then ""
    else
      var last := t[|t| - 1];
      Carried(t[..|t| - 1], ch) + (if last.BlockDelta? then PartOn(last.part, ch) else "")
  }

  function ActionOn(a: Action, ch: Channel): string {
    match a
    case Say(s) => if ch.TextChannel? then s else ""
    case Think(s) => if ch.ThinkingChannel? then s else ""
    case ToolArgs(s) => if ch.JsonChannel? then s else ""
    case _ => ""
  }

  function Meant(actions: seq<Action>, ch: Channel): string {
    if actions == [] then "" else ActionOn(actions[0], ch) + Meant(actions[1..], ch)
  }

  lemma CarriedSnoc(t: seq<SseEvent>, e: SseEvent, ch: Channel)
    ensures Carried(t + [e], ch) == Carried(t, ch) + (if e.BlockDelta? then PartOn(e.part, ch) else "")
  {
    assert (t + [e])[..|t|] == t;
  }

  lemma EmitCarries(c: Core, e: SseEvent, ch: Channel)
    ensures Carried(c.Emit(e).trace, ch) == Carried(c.trace, ch) + (if e.BlockDelta? then PartOn(e.part, ch) else "")
  {
    CarriedSnoc(c.trace, e, ch);
  }

  lemma QuietCarries(c: Core, kind: Kind, ch: Channel)
    ensures Carried(c.CloseOpen().trace, ch) == Carried(c.trace, ch)
    ensures Carried(c.Open(kind).trace, ch) == Carried(c.trace, ch)
  {
    EmitCarries(c, BlockStop(c.blockIndex), ch);
    EmitCarries(c, BlockStart(c.blockIndex, kind), ch);
    assert Carried(c.trace, ch) + "" == Carried(c.trace, ch);
  }

  lemma ActCarries(c: Core, a: Action, ch: Channel)
    ensures Carried(Act(c, a).trace, ch) == Carried(c.trace, ch) + ActionOn(a, ch)
  {
    hide Carried;
    var was := Carried(c.trace, ch);
    assert was + "" == was;
    match a {
      case Start(id, model) => EmitCarries(c, MessageStart(id, model), ch);
      case Say(text) =>
        var c1 := if c.inThinking then c.CloseOpen().(inThinking := false) else c;
        QuietCarries(c, TextBlock, ch);
        QuietCarries(c1, TextBlock, ch);
        var c2 := if c1.blockOpen then c1 else c1.Open(TextBlock);
        EmitCarries(c2, BlockDelta(c2.blockIndex, TextDelta(text)), ch);
      case Think(text) =>
        QuietCarries(c, ThinkingBlock, ch);
        QuietCarries(c.CloseOpen(), ThinkingBlock, ch);
        var c2 := if c.inThinking then c else c.CloseOpen().Open(ThinkingBlock).(inThinking := true);
        EmitCarries(c2, BlockDelta(c2.blockIndex, ThinkingDelta(text)), ch);
      case ToolStart(id, name) =>
        QuietCarries(c, ToolBlock(id, name), ch);
        QuietCarries(c.CloseOpen(), ToolBlock(id, name), ch);
      case ToolArgs(text) => EmitCarries(c, BlockDelta(c.blockIndex, JsonDelta(text)), ch);
      case Finish(reason, usage) =>
        QuietCarries(c, TextBlock, ch);
        EmitCarries(c.CloseOpen(), MessageDelta(reason, usage), ch);
        EmitCarries(c.CloseOpen().Emit(MessageDelta(reason, usage)), MessageStop, ch);
    }
  }

  lemma {:induction false} MeantAppend(a: seq<Action>, b: seq<Action>, ch: Channel)
    ensures Meant(a + b, ch) == Meant(a, ch) + Meant(b, ch)
  {
    if a == [] {
      assert a + b == b;
    } else {
      assert (a + b)[1..] == a[1..] + b;
      MeantAppend(a[1..], b, ch);
    }
  }

  lemma {:induction false} AllCarry(c: Core, actions: seq<Action>, ch: Channel)
    ensures Carried(ActAll(c, actions).trace, ch) == Carried(c.trace, ch) + Meant(actions, ch)
    decreases |actions|
  {
    hide Carried, Act, ActionOn;
    if actions != [] {
      var n := |actions| - 1;
      AllCarry(c, actions[..n], ch);
      ActCarries(ActAll(c, actions[..n]), actions[n], ch);
      assert actions == actions[..n] + [actions[n]];
      MeantAppend(actions[..n], [actions[n]], ch);
      assert Meant([actions[n]], ch) == ActionOn(actions[n], ch) + "";
    }
  }

  /** What the client should get out of a list of normaliser emissions. */
  function Spoken(out: seq<Emission>, skipThinking: bool, ch: Channel): string {
    match ch
    case TextChannel => Concat(Contents(out))
    case ThinkingChannel => if skipThinking then "" else Concat(Reasonings(out))
    case JsonChannel => ""
  }

  lemma {:induction false} SpeechMeant(out: seq<Emission>, skipThinking: bool, ch: Channel)
    ensures Meant(SpeechActions(out, skipThinking), ch) == Spoken(out, skipThinking, ch)
  {
    if out != [] {
      SpeechMeant(out[1..], skipThinking, ch);
      MeantAppend(EmissionActions(out[0], skipThinking), SpeechActions(out[1..], skipThinking), ch);
      EmissionMeant(out[0], skipThinking, ch);
      SpokenStep(out, skipThinking, ch);
    }
  }

  lemma EmissionMeant(e: Emission, skipThinking: bool, ch: Channel)
    ensures Meant(EmissionActions(e, skipThinking), ch) == Spoken([e], skipThinking, ch)
  {
    OneEmission(e);
    assert Concat([e.text]) == e.text + "" == e.text;
    match e {
      case Content(text) =>
      case Reasoning(text) =>
    }
  }

  lemma OneEmission(e: Emission)
    ensures Contents([e]) == if e.Content? then [e.text] else []
    ensures Reasonings([e]) == if e.Reasoning? then [e.text] else []
  {
    assert [e][1..] == [];
    assert Contents([]) == [] && Reasonings([]) == [];
    assert [e.text] + [] == [e.text];
  }

  lemma SpokenStep(out: seq<Emission>, skipThinking: bool, ch: Channel)
    requires out != []
    ensures Spoken(out, skipThinking, ch) == Spoken([out[0]], skipThinking, ch) + Spoken(out[1..], skipThinking, ch)
  {
    SpokenAppend([out[0]], out[1..], skipThinking, ch);
    assert out == [out[0]] + out[1..];
  }

  lemma SpokenAppend(a: seq<Emission>, b: seq<Emission>, skipThinking: bool, ch: Channel)
    ensures Spoken(a + b, skipThinking, ch) == Spoken(a, skipThinking, ch) + Spoken(b, skipThinking, ch)
  {
    OutAppend(a, b);
    ConcatAppend(Contents(a), Contents(b));
    ConcatAppend(Reasonings(a), Reasonings(b));
  }

  function Arguments(fragments: seq<ToolFragment>): string {
    if fragments == [] then "" else fragments[0].arguments + Arguments(fragments[1..])
  }

  lemma {:induction false} ToolsMeant(fragments: seq<ToolFragment>, ch: Channel)
    ensures Meant(ToolActions(fragments), ch) == if ch.JsonChannel? then Arguments(fragments) else ""
  {
    if fragments != [] {
      var f := fragments[0];
      ToolsMeant(fragments[1..], ch);
      MeantAppend(FragmentActions(f), ToolActions(fragments[1..]), ch);
      FragmentMeant(f, ch);
    }
  }

  lemma FragmentMeant(f: ToolFragment, ch: Channel)
    ensures Meant(FragmentActions(f), ch) == if ch.JsonChannel? then f.arguments else ""
  {
    var (a, b) := (if f.id != "" then [ToolStart(f.id, f.name)] else [],
                   if f.arguments != "" then [ToolArgs(f.arguments)] else []);
    MeantAppend(a, b, ch);
    assert f.arguments + "" == f.arguments;
  }

  /** What the normaliser is fed over a run, and the tool arguments of all chunks. */
  function Inputs(chunks: seq<StreamChunk>): seq<Input> {
    if chunks == [] then []
    else
      (if Bearing(chunks[0]) then [Delta(chunks[0].choices[0].content, chunks[0].choices[0].reasoning)] else [])
      + Inputs(chunks[1..])
  }

  function AllArguments(chunks: seq<StreamChunk>): string {
    if chunks == [] then ""
    else (if Bearing(chunks[0]) then Arguments(chunks[0].choices[0].toolCalls) else "") + AllArguments(chunks[1..])
  }

  function Due(n: State, inputs: seq<Input>, arguments: string, skipThinking: bool, ch: Channel): string
    requires n.parser.Valid()
  {
    if ch.JsonChannel? then arguments else Spoken(Run(n, inputs).1, skipThinking, ch)
  }

  /** What one chunk adds to a channel. */
  function Added(n: State, choice: Choice, skipThinking: bool, ch: Channel): string
    requires n.parser.Valid()
  {
    if ch.JsonChannel? then Arguments(choice.toolCalls)
    else Spoken(Deliver(n, choice.content, choice.reasoning).1, skipThinking, ch)
  }

  lemma ChunkMeant(mode: Mode, n: State, c: StreamChunk, ch: Channel)
    requires n.parser.Valid() && c.choices != []
    ensures Meant(ChunkActions(mode, n, c), ch) == Added(n, c.choices[0], mode.skipThinking, ch)
  {
    hide Meant, Deliver, SpeechActions, ToolActions, Arguments, Spoken;
    var choice := c.choices[0];
    var out := Deliver(n, choice.content, choice.reasoning).1;
    var (first, speech, tools) :=
      ([Start(c.id, c.model)], SpeechActions(out, mode.skipThinking), ToolActions(choice.toolCalls));
    var last := if choice.finishReason.Some? then [Finish(mode.mapReason(choice.finishReason.value), c.usage)] else [];
    MeantAppend(first + speech + tools, last, ch);
    MeantAppend(first + speech, tools, ch);
    MeantAppend(first, speech, ch);
    SilentMeant(c, last, ch);
    SpeechMeant(out, mode.skipThinking, ch);
    ToolsMeant(choice.toolCalls, ch);
    SpokenOnJson(out, mode.skipThinking, ch);
  }

  lemma ChunkCarries(mode: Mode, s: Translator, c: StreamChunk, ch: Channel)
    requires s.normalizer.parser.Valid() && Bearing(c)
    ensures Carried(Process(mode, s, c).core.trace, ch) ==
      Carried(s.core.trace, ch) + Added(s.normalizer, c.choices[0], mode.skipThinking, ch)
  {
    hide Carried, ActAll, Deliver, ChunkActions, Keepalive, Added;
    AllCarry(s.core, ChunkActions(mode, s.normalizer, c), ch);
    ChunkMeant(mode, s.normalizer, c, ch);
  }

  lemma SpokenOnJson(out: seq<Emission>, skipThinking: bool, ch: Channel)
    ensures ch.JsonChannel? ==> Spoken(out, skipThinking, ch) == ""
  {
  }

  lemma SilentMeant(c: StreamChunk, last: seq<Action>, ch: Channel)
    requires |last| <= 1 && forall i :: 0 <= i < |last| ==> last[i].Finish?
    ensures Meant([Start(c.id, c.model)], ch) == "" && Meant(last, ch) == ""
  {
  }

  lemma {:induction false} ChunkedCarries(mode: Mode, s: Translator, chunks: seq<StreamChunk>, ch: Channel)
    requires s.normalizer.parser.Valid()
    ensures var r := Chunked(mode, s, chunks);
      Carried(r.core.trace, ch) ==
        Carried(s.core.trace, ch) + Due(s.normalizer, Inputs(chunks), AllArguments(chunks), mode.skipThinking, ch) &&
      r.normalizer == Run(s.normalizer, Inputs(chunks)).0
    decreases chunks
  {
    hide Added, Carried, Process, Due, Run, Keepalive, Arguments;
    if chunks == [] {
      NothingDue(s.normalizer, mode.skipThinking, ch);
      assert Carried(s.core.trace, ch) + "" == Carried(s.core.trace, ch);
    } else {
      var (c, later) := (chunks[0], chunks[1..]);
      var next := Process(mode, s, c);
      ChunkedCarries(mode, next, later, ch);
      if Bearing(c) {
        ChunkCarries(mode, s, c, ch);
        DueStep(mode, s, c, later, ch);
        assert [c] + later == chunks;
        Regroup(Carried(s.core.trace, ch), Added(s.normalizer, c.choices[0], mode.skipThinking, ch),
                Due(next.normalizer, Inputs(later), AllArguments(later), mode.skipThinking, ch));
      } else {
        SilentChunk(mode, s, c);
        assert [] + Inputs(later) == Inputs(later) && "" + AllArguments(later) == AllArguments(later);
      }
    }
  }

  lemma Regroup(a: string, b: string, c: string)
    ensures a + b + c == a + (b + c)
  {
  }

  lemma SilentChunk(mode: Mode, s: Translator, c: StreamChunk)
    requires s.normalizer.parser.Valid() && !Bearing(c)
    ensures Process(mode, s, c).core == s.core && Process(mode, s, c).normalizer == s.normalizer
  {
  }

  lemma NothingDue(n: State, skipThinking: bool, ch: Channel)
    requires n.parser.Valid()
    ensures Due(n, [], "", skipThinking, ch) == "" && Run(n, []).0 == n
  {
  }

  lemma DueStep(mode: Mode, s: Translator, c: StreamChunk, later: seq<StreamChunk>, ch: Channel)
    requires s.normalizer.parser.Valid() && Bearing(c)
    ensures var (n, next) := (s.normalizer, Process(mode, s, c).normalizer);
      Run(n, Inputs([c] + later)).0 == Run(next, Inputs(later)).0 &&
      Due(n, Inputs([c] + later), AllArguments([c] + later), mode.skipThinking, ch) ==
        Added(n, c.choices[0], mode.skipThinking, ch) +
        Due(next, Inputs(later), AllArguments(later), mode.skipThinking, ch)
  {
    hide Keepalive, Arguments, Spoken, Deliver, ActAll, ChunkActions;
    var d := Delta(c.choices[0].content, c.choices[0].reasoning);
    assert ([c] + later)[1..] == later;
    assert ([d] + Inputs(later))[1..] == Inputs(later);
    SpokenAppend(Step(s.normalizer, d).1, Run(Process(mode, s, c).normalizer, Inputs(later)).1, mode.skipThinking, ch);
  }

  /** Main result, for every input: the text deltas of a run, concatenated, are the content of the normaliser; the
      thinking deltas are its reasoning, or nothing if thinking is skipped; the JSON deltas are all tool arguments. */
  lemma Conservation(mode: Mode, chunks: seq<StreamChunk>, ch: Channel)
    ensures Carried(Whole(mode, chunks).core.trace, ch) ==
      Due(INITIAL.normalizer, Inputs(chunks) + [End], AllArguments(chunks), mode.skipThinking, ch)
  {
    hide Carried, ActAll, FlushActions, Due, Chunked, Run, Inputs, AllArguments;
    ChunkedCarries(mode, INITIAL, chunks, ch);
    var s := Chunked(mode, INITIAL, chunks);
    EmptyCarries(ch);
    AllCarry(s.core, FlushActions(mode, s), ch);
    FlushMeant(mode, s, ch);
    DueEnd(INITIAL.normalizer, Inputs(chunks), AllArguments(chunks), mode.skipThinking, ch);
    assert "" + Due(INITIAL.normalizer, Inputs(chunks), AllArguments(chunks), mode.skipThinking, ch) ==
      Due(INITIAL.normalizer, Inputs(chunks), AllArguments(chunks), mode.skipThinking, ch);
  }

  lemma FlushMeant(mode: Mode, s: Translator, ch: Channel)
    requires s.normalizer.parser.Valid()
    ensures Meant(FlushActions(mode, s), ch) == Spoken(Close(s.normalizer).1, mode.skipThinking, ch)
  {
    hide SpeechActions, Spoken, Close;
    var out := Close(s.normalizer).1;
    var end: Action := Finish("end_turn", s.lastUsage);
    MeantAppend(SpeechActions(out, mode.skipThinking), [end], ch);
    SpeechMeant(out, mode.skipThinking, ch);
    assert Meant([end], ch) == "";
  }

  lemma DueEnd(n: State, inputs: seq<Input>, arguments: string, skipThinking: bool, ch: Channel)
    requires n.parser.Valid()
    ensures Due(n, inputs + [End], arguments, skipThinking, ch) ==
      Due(n, inputs, arguments, skipThinking, ch) + Spoken(Close(Run(n, inputs).0).1, skipThinking, ch)
  {
    hide Run, Spoken, Close;
    RunAppend(n, inputs, [End]);
    RunEnd(Run(n, inputs).0);
    SpokenAppend(Run(n, inputs).1, Close(Run(n, inputs).0).1, skipThinking, ch);
    SpokenOnJson(Close(Run(n, inputs).0).1, skipThinking, ch);
    assert arguments + "" == arguments;
  }

  lemma EmptyCarries(ch: Channel)
    ensures Carried(EMPTY.trace, ch) == ""
  {
  }

  lemma RunEnd(n: State)
    requires n.parser.Valid()
    ensures Run(n, [End]) == Close(n)
  {
    assert Close(n).1 + [] == Close(n).1;
  }
}
