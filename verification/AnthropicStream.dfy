/** StreamTranslator (translator/stream.go): OpenAI chunks in, Anthropic events out. */
module AnthropicStream {
  import opened Strings
  import opened Chunks
  import opened Options
  import opened Normalizer

  datatype Kind = TextBlock | ThinkingBlock | ToolBlock(id: string, name: string)

  datatype Part = TextDelta(text: string) | ThinkingDelta(text: string) | JsonDelta(text: string)

  datatype SseEvent =
    | MessageStart(id: string, model: string)
    | BlockStart(index: nat, kind: Kind)
    | BlockDelta(index: nat, part: Part)
    | BlockStop(index: nat)
    | MessageDelta(stopReason: string, usage: Option<Usage>)
    | MessageStop

  /** The flags of the translator together with everything emitted so far. */
  datatype Core = Core(started: bool, blockOpen: bool, blockIndex: nat, inThinking: bool, finished: bool,
                       trace: seq<SseEvent>)
  {
    function Emit(e: SseEvent): Core {
      this.(trace := trace + [e])
    }

    function CloseBlock(): Core {
      Emit(BlockStop(blockIndex)).(blockIndex := blockIndex + 1, blockOpen := false)
    }

    function CloseOpen(): Core {
      if blockOpen then CloseBlock() else this
    }

    function Open(kind: Kind): Core {
      Emit(BlockStart(blockIndex, kind)).(blockOpen := true)
    }

    function Put(part: Part): Core {
      Emit(BlockDelta(blockIndex, part))
    }
  }

  const EMPTY := Core(false, false, 0, false, false, [])

  /** What one chunk makes the translator do, in order. */
  datatype Action =
    | Start(id: string, model: string)
    | Say(text: string)
    | Think(text: string)
    | ToolStart(id: string, name: string)
    | ToolArgs(text: string)
    | Finish(reason: string, usage: Option<Usage>)

  function Act(c: Core, a: Action): Core {
    match a
    case Start(id, model) => if c.started then c else c.Emit(MessageStart(id, model)).(started := true)
    case Say(text) =>
      var c1 := if c.inThinking then c.CloseOpen().(inThinking := false) else c;
      (if c1.blockOpen then c1 else c1.Open(TextBlock)).Put(TextDelta(text))
    case Think(text) =>
      (if c.inThinking then c else c.CloseOpen().Open(ThinkingBlock).(inThinking := true)).Put(ThinkingDelta(text))
    case ToolStart(id, name) => c.CloseOpen().Open(ToolBlock(id, name))
    case ToolArgs(text) => c.Put(JsonDelta(text))
    case Finish(reason, usage) =>
      if c.finished then c else c.CloseOpen().Emit(MessageDelta(reason, usage)).Emit(MessageStop).(finished := true)
  }

  function ActAll(c: Core, actions: seq<Action>): Core
    decreases |actions|
  {
    if actions == [] then c else Act(ActAll(c, actions[..|actions| - 1]), actions[|actions| - 1])
  }

  lemma ActSnoc(c: Core, actions: seq<Action>, a: Action)
    ensures ActAll(c, actions + [a]) == Act(ActAll(c, actions), a)
  {
    assert (actions + [a])[..|actions|] == actions;
  }

  lemma ActOne(c: Core)
    ensures ActAll(c, []) == c
    ensures forall a :: ActAll(c, [a]) == Act(c, a)
  {
    forall a ensures ActAll(c, [a]) == Act(c, a) {
      assert [a][..0] == [];
    }
  }

  lemma {:induction false} ActAppend(c: Core, a: seq<Action>, b: seq<Action>)
    ensures ActAll(c, a + b) == ActAll(ActAll(c, a), b)
    decreases |b|
  {
    if b == [] {
      assert a + b == a;
    } else {
      var last := b[|b| - 1];
      assert a + b == a + b[..|b| - 1] + [last];
      ActSnoc(c, a + b[..|b| - 1], last);
      ActAppend(c, a, b[..|b| - 1]);
    }
  }

  /** Empty texts are dropped, and so is all reasoning if the client does not want it. */
  function EmissionActions(e: Emission, skipThinking: bool): seq<Action> {
    match e
    case Content(text) => if text == "" then [] else [Say(text)]
    case Reasoning(text) => if text == "" || skipThinking then [] else [Think(text)]
  }

  function SpeechActions(out: seq<Emission>, skipThinking: bool): seq<Action> {
    if out == [] then [] else EmissionActions(out[0], skipThinking) + SpeechActions(out[1..], skipThinking)
  }

  function FragmentActions(f: ToolFragment): seq<Action> {
    (if f.id != "" then [ToolStart(f.id, f.name)] else []) + (if f.arguments != "" then [ToolArgs(f.arguments)] else [])
  }

  function ToolActions(fragments: seq<ToolFragment>): seq<Action> {
    if fragments == [] then [] else FragmentActions(fragments[0]) + ToolActions(fragments[1..])
  }

  /** MapFinishReason is left as a parameter of the model. */
  datatype Mode = Mode(skipThinking: bool, mapReason: string -> string)

  /** The whole translator: its core, the normaliser inside it, and the usage kept for the end. */
  datatype Translator = Translator(core: Core, normalizer: Normalizer.State, lastUsage: Option<Usage>)

  const INITIAL := Translator(EMPTY, Normalizer.State(START, false), None)

  function ChunkActions(mode: Mode, n: Normalizer.State, c: StreamChunk): seq<Action>
    requires n.parser.Valid() && c.choices != []
  {
    var choice := c.choices[0];
    [Start(c.id, c.model)]
    + SpeechActions(Deliver(n, choice.content, choice.reasoning).1, mode.skipThinking)
    + ToolActions(choice.toolCalls)
    + (if choice.finishReason.Some? then [Finish(mode.mapReason(choice.finishReason.value), c.usage)] else [])
  }

  function Process(mode: Mode, s: Translator, c: StreamChunk): (r: Translator)
    requires s.normalizer.parser.Valid()
    ensures r.normalizer.parser.Valid()
  {
    if Keepalive(c) then s
    else if c.choices == [] then if c.usage.Some? then s.(lastUsage := c.usage) else s
    else
      Translator(ActAll(s.core, ChunkActions(mode, s.normalizer, c)),
            Deliver(s.normalizer, c.choices[0].content, c.choices[0].reasoning).0, s.lastUsage)
  }

  function FlushActions(mode: Mode, s: Translator): seq<Action>
    requires s.normalizer.parser.Valid()
  {
    SpeechActions(Close(s.normalizer).1, mode.skipThinking) + [Finish("end_turn", s.lastUsage)]
  }

  function Flushed(mode: Mode, s: Translator): Translator
    requires s.normalizer.parser.Valid()
  {
    s.(core := ActAll(s.core, FlushActions(mode, s)), normalizer := Close(s.normalizer).0)
  }

  class StreamTranslator {
    var started: bool
    var blockOpen: bool
    var blockIndex: nat
    var finished: bool
    var inThinking: bool
    const mode: Mode
    var lastUsage: Option<Usage>
    const normalizer: StreamNormalizer
    var trace: seq<SseEvent>

    ghost predicate Valid()
      reads this, normalizer
    {
      normalizer.Valid()
    }

    ghost function CoreNow(): Core
      reads this
    {
      Core(started, blockOpen, blockIndex, inThinking, finished, trace)
    }

    ghost function Current(): Translator
      reads this, normalizer
    {
      Translator(CoreNow(), normalizer.Current(), lastUsage)
    }

    constructor (mode: Mode)
      ensures Valid() && Current() == INITIAL && this.mode == mode && fresh(normalizer)
    {
      this.mode := mode;
      normalizer := new StreamNormalizer();
      started, blockOpen, blockIndex, finished, inThinking := false, false, 0, false, false;
      lastUsage := None;
      trace := [];
    }

    method Emit(e: SseEvent)
      modifies this`trace
      ensures trace == old(trace) + [e]
    {
      trace := trace + [e];
    }

    method CloseBlock()
      modifies this`trace, this`blockIndex, this`blockOpen
      ensures CoreNow() == old(CoreNow()).CloseBlock()
    {
      Emit(BlockStop(blockIndex));
      blockIndex := blockIndex + 1;
      blockOpen := false;
    }

    method HandleNormalizedContent(content: string)
      modifies this
      ensures CoreNow() == if content == "" then old(CoreNow()) else Act(old(CoreNow()), Say(content))
      ensures lastUsage == old(lastUsage)
    {
      if content == "" {
        return;
      }
      if inThinking {
        if blockOpen {
          CloseBlock();
        }
        inThinking := false;
      }
      if !blockOpen {
        blockOpen := true;
        Emit(BlockStart(blockIndex, TextBlock));
      }
      Emit(BlockDelta(blockIndex, TextDelta(content)));
    }

    method HandleNormalizedReasoning(reasoning: string)
      modifies this
      ensures CoreNow() ==
        if reasoning == "" || mode.skipThinking then old(CoreNow()) else Act(old(CoreNow()), Think(reasoning))
      ensures lastUsage == old(lastUsage)
    {
      if reasoning == "" || mode.skipThinking {
        return;
      }
      if !inThinking {
        if blockOpen {
          CloseBlock();
        }
        inThinking := true;
        blockOpen := true;
        Emit(BlockStart(blockIndex, ThinkingBlock));
      }
      Emit(BlockDelta(blockIndex, ThinkingDelta(reasoning)));
    }

    /** The callbacks of the normaliser, in the order in which it makes them. */
    method Deliver(out: seq<Emission>)
      modifies this
      ensures CoreNow() == ActAll(old(CoreNow()), SpeechActions(out, mode.skipThinking))
      ensures lastUsage == old(lastUsage)
    {
      hide Act, ActAll;
      var i := 0;
      assert out[0..] == out;
      while i < |out|
        invariant 0 <= i <= |out| && lastUsage == old(lastUsage)
        invariant ActAll(CoreNow(), SpeechActions(out[i..], mode.skipThinking)) ==
          ActAll(old(CoreNow()), SpeechActions(out, mode.skipThinking))
      {
        assert out[i..][1..] == out[i + 1..];
        ActAppend(CoreNow(), EmissionActions(out[i], mode.skipThinking),
                  SpeechActions(out[i + 1..], mode.skipThinking));
        ActOne(CoreNow());
        match out[i] {
          case Content(text) => HandleNormalizedContent(text);
          case Reasoning(text) => HandleNormalizedReasoning(text);
        }
        i := i + 1;
      }
      ActOne(CoreNow());
    }

    method HandleToolCalls(fragments: seq<ToolFragment>)
      modifies this
      ensures CoreNow() == ActAll(old(CoreNow()), ToolActions(fragments))
      ensures lastUsage == old(lastUsage)
    {
      hide Act, ActAll, FragmentActions;
      var i := 0;
      assert fragments[0..] == fragments;
      while i < |fragments|
        invariant 0 <= i <= |fragments| && lastUsage == old(lastUsage)
        invariant ActAll(CoreNow(), ToolActions(fragments[i..])) == ActAll(old(CoreNow()), ToolActions(fragments))
      {
        assert fragments[i..][1..] == fragments[i + 1..];
        ActAppend(CoreNow(), FragmentActions(fragments[i]), ToolActions(fragments[i + 1..]));
        HandleFragment(fragments[i]);
        i := i + 1;
      }
      ActOne(CoreNow());
    }

    method HandleFragment(f: ToolFragment)
      modifies this
      ensures CoreNow() == ActAll(old(CoreNow()), FragmentActions(f))
      ensures lastUsage == old(lastUsage)
    {
      hide ActAll;
      ghost var c := CoreNow();
      ActAppend(c, if f.id != "" then [ToolStart(f.id, f.name)] else [],
                if f.arguments != "" then [ToolArgs(f.arguments)] else []);
      ActOne(c);
      if f.id != "" {
        if blockOpen {
          CloseBlock();
        }
        blockOpen := true;
        Emit(BlockStart(blockIndex, ToolBlock(f.id, f.name)));
      }
      ActOne(CoreNow());
      if f.arguments != "" {
        Emit(BlockDelta(blockIndex, JsonDelta(f.arguments)));
      }
    }

    method End(reason: string, usage: Option<Usage>)
      modifies this
      ensures CoreNow() == Act(old(CoreNow()), Finish(reason, usage))
      ensures lastUsage == old(lastUsage)
    {
      if !finished {
        if blockOpen {
          CloseBlock();
        }
        Emit(MessageDelta(reason, usage));
        Emit(MessageStop);
        finished := true;
      }
    }

    method ProcessChunk(chunk: StreamChunk)
      requires Valid()
      modifies this, normalizer
      ensures Valid() && Current() == Process(mode, old(Current()), chunk)
    {
      hide Act, ActAll, SpeechActions, Normalizer.Deliver, Index;
      if Keepalive(chunk) {
        return;
      }
      if chunk.choices == [] {
        if chunk.usage != None {
          lastUsage := chunk.usage;
        }
        return;
      }
      var ch := chunk.choices[0];
      ghost var c0 := CoreNow();
      Begin(chunk.id, chunk.model);
      ActOne(c0);
      ghost var begun := CoreNow();
      var out := normalizer.ProcessChunk(ch.content, ch.reasoning);
      Deliver(out);
      if ch.toolCalls != [] {
        HandleToolCalls(ch.toolCalls);
      }
      assert ToolActions([]) == [];
      ghost var talked := CoreNow();
      ActOne(talked);
      if ch.finishReason != None {
        End(mode.mapReason(ch.finishReason.value), chunk.usage);
      }
      ghost var (first, speech, tools) :=
        ([Start(chunk.id, chunk.model)], SpeechActions(out, mode.skipThinking), ToolActions(ch.toolCalls));
      ghost var last := if ch.finishReason != None
                        then [Finish(mode.mapReason(ch.finishReason.value), chunk.usage)] else [];
      ActAppend(c0, first, speech);
      ActAppend(c0, first + speech, tools);
      ActAppend(c0, first + speech + tools, last);
    }

    method Begin(id: string, model: string)
      modifies this
      ensures CoreNow() == Act(old(CoreNow()), Start(id, model)) && lastUsage == old(lastUsage)
    {
      if !started {
        started := true;
        Emit(MessageStart(id, model));
      }
    }

    method Flush()
      requires Valid()
      modifies this, normalizer
      ensures Valid() && Current() == Flushed(mode, old(Current()))
    {
      hide Act, SpeechActions;
      ghost var c0 := CoreNow();
      var out := normalizer.Flush();
      Deliver(out);
      End("end_turn", lastUsage);
      ActSnoc(c0, SpeechActions(out, mode.skipThinking), Finish("end_turn", lastUsage));
    }
  }
}
