/** ResponsesStreamTranslator (translator/responses_stream.go): OpenAI chunks in, Responses API events out. */
module ResponsesStream {
  import opened Strings
  import opened Chunks
  import opened Options
  import opened Normalizer

  datatype Item =
    | Message(text: string)
    | FunctionCall(callId: string, name: string, arguments: string)
    | CustomCall(callId: string, name: string, input: string)

  datatype ResponseEvent =
    | Created(model: string)
    | ItemAdded(index: nat, item: Item)
    | PartAdded(index: nat, contentIndex: nat)
    | TextDelta(index: nat, contentIndex: nat, text: string)
    | TextDone(index: nat, contentIndex: nat, text: string)
    | PartDone(index: nat, contentIndex: nat, text: string)
    | ItemDone(index: nat, item: Item)
    | ReasoningDelta(index: nat, contentIndex: nat, text: string)
    | ReasoningDone(index: nat, contentIndex: nat)
    | ArgumentsDelta(index: nat, itemId: string, text: string)
    | ArgumentsDone(index: nat, itemId: string, text: string)
    | InputDelta(index: nat, itemId: string, text: string)
    | InputDone(index: nat, itemId: string, text: string)
    | Completed(model: string, output: seq<Item>, usage: Option<Usage>)

  /** toolCallState */
  datatype Call = Call(id: string, name: string, arguments: string, inputEmitted: nat, custom: bool) {
    function ItemId(responseId: string): string {
      (if custom then "ctc_" else "fc_") + (if id == "" then responseId else id)
    }
  }

  /** The response id, the names of the custom tools, and the extraction of a custom tool's input from its arguments. */
  datatype Setup = Setup(responseId: string, customTools: set<string>, extract: string -> string) {
    /** extractCustomToolInput maps no arguments to no input. */
    ghost predicate Valid() {
      extract("") == ""
    }
  }

  datatype Core = Core(started: bool, finished: bool, model: string, outputIndex: nat, contentIndex: nat, hasText: bool,
                       textAccum: string, reasoningAccum: string, calls: seq<Call>, inReasoning: bool,
                       trace: seq<ResponseEvent>)
  {
    function Emit(e: ResponseEvent): Core {
      this.(trace := trace + [e])
    }

    function Offset(): nat {
      if hasText then 1 else 0
    }
  }

  const EMPTY := Core(false, false, "", 0, 0, false, "", "", [], false, [])

  datatype Action =
    | Start(model: string)
    | Say(text: string)
    | Think(text: string)
    | ToolBegin
    | ToolStart(id: string, name: string)
    | ToolArgs(text: string)
    | Finish(usage: Option<Usage>)

  function CloseReasoning(c: Core): Core {
    if !c.inReasoning then c
    else c.Emit(ReasoningDone(c.outputIndex, c.contentIndex)).(inReasoning := false, contentIndex := c.contentIndex + 1)
  }

  function AddMessage(c: Core): Core {
    c.Emit(ItemAdded(c.outputIndex, Message(""))).Emit(PartAdded(c.outputIndex, c.contentIndex))
  }

  function HandleTextCore(c: Core, text: string): Core {
    var c1 := CloseReasoning(c);
    var c2 := if c1.hasText then c1 else AddMessage(c1.(hasText := true));
    c2.(textAccum := c2.textAccum + text).Emit(TextDelta(c2.outputIndex, c2.contentIndex, text))
  }

  function HandleReasoningCore(c: Core, text: string): Core {
    var c1 := if c.inReasoning then c else AddMessage(c.(inReasoning := true));
    c1.(reasoningAccum := c1.reasoningAccum + text).Emit(ReasoningDelta(c1.outputIndex, c1.contentIndex, text))
  }

  function NewCall(setup: Setup, id: string, name: string): Call {
    Call(id, name, "", 0, name in setup.customTools)
  }

  function StartTool(setup: Setup, c: Core, id: string, name: string): Core {
    var call := NewCall(setup, id, name);
    var item := if call.custom then CustomCall(id, name, "") else FunctionCall(id, name, "");
    c.(calls := c.calls + [call]).Emit(ItemAdded(|c.calls| + c.Offset(), item))
  }

  /** One more fragment of arguments: the new state of the call, and the text of the delta, if any. */
  function AddFragment(setup: Setup, call: Call, text: string): (Call, Option<string>) {
    var call1 := call.(arguments := call.arguments + text);
    if !call.custom then (call1, Some(text))
    else
      var input := setup.extract(call1.arguments);
      if |input| > call.inputEmitted
      then (call1.(inputEmitted := |input|), Some(input[call.inputEmitted..]))
      else (call1, None)
  }

  /** Arguments go to the latest call, whatever index they carry. */
  function ToolArguments(setup: Setup, c: Core, text: string): Core {
    if c.calls == [] then c
    else
      var last := |c.calls| - 1;
      var (call, delta) := AddFragment(setup, c.calls[last], text);
      var c1 := c.(calls := c.calls[last := call]);
      if delta == None then c1
      else if call.custom then c1.Emit(InputDelta(last + c.Offset(), call.ItemId(setup.responseId), delta.value))
      else c1.Emit(ArgumentsDelta(last + c.Offset(), call.ItemId(setup.responseId), delta.value))
  }

  function FinalItem(setup: Setup, call: Call): Item {
    if call.custom then CustomCall(call.id, call.name, setup.extract(call.arguments))
    else FunctionCall(call.id, call.name, call.arguments)
  }

  /** The events that close one call. */
  function CloseCall(setup: Setup, call: Call, index: nat): seq<ResponseEvent> {
    var itemId := call.ItemId(setup.responseId);
    var input := setup.extract(call.arguments);
    (if call.custom then
       (if |input| > call.inputEmitted then [InputDelta(index, itemId, input[call.inputEmitted..])] else [])
       + [InputDone(index, itemId, input)]
     else [ArgumentsDone(index, itemId, call.arguments)])
    + [ItemDone(index, FinalItem(setup, call))]
  }

  function CloseCalls(setup: Setup, calls: seq<Call>, offset: nat): seq<ResponseEvent> {
    if calls == [] then []
    else
      CloseCalls(setup, calls[..|calls| - 1], offset)
      + CloseCall(setup, calls[|calls| - 1], |calls| - 1 + offset)
  }

  function FinalItems(setup: Setup, calls: seq<Call>): seq<Item> {
    if calls == [] then [] else FinalItems(setup, calls[..|calls| - 1]) + [FinalItem(setup, calls[|calls| - 1])]
  }

  /** buildOutput */
  function BuildOutput(setup: Setup, c: Core): seq<Item> {
    (if c.hasText then [Message(c.textAccum)] else []) + FinalItems(setup, c.calls)
  }

  function CloseText(c: Core): Core {
    if !c.hasText then c
    else
      c.Emit(TextDone(c.outputIndex, c.contentIndex, c.textAccum))
       .Emit(PartDone(c.outputIndex, c.contentIndex, c.textAccum))
       .Emit(ItemDone(c.outputIndex, Message(c.textAccum)))
       .(outputIndex := c.outputIndex + 1)
  }

  function StopReasoning(c: Core): Core {
    if !c.inReasoning then c else c.Emit(ReasoningDone(c.outputIndex, c.contentIndex)).(inReasoning := false)
  }

  function FinishCore(setup: Setup, c: Core, usage: Option<Usage>): Core {
    var c1 := StopReasoning(CloseText(c));
    c1.(trace := c1.trace + CloseCalls(setup, c.calls, c.Offset()) + [Completed(c.model, BuildOutput(setup, c), usage)],
        finished := true)
  }

  function Act(setup: Setup, c: Core, a: Action): Core {
    match a
    case Start(model) => if c.started then c else c.(started := true, model := model).Emit(Created(model))
    case Say(text) => HandleTextCore(c, text)
    case Think(text) => HandleReasoningCore(c, text)
    case ToolBegin => c.(inReasoning := false)
    case ToolStart(id, name) => StartTool(setup, c, id, name)
    case ToolArgs(text) => ToolArguments(setup, c, text)
    case Finish(usage) => if c.finished then c else FinishCore(setup, c, usage)
  }

  function ActAll(setup: Setup, c: Core, actions: seq<Action>): Core
    decreases |actions|
  {
    if actions == [] then c else Act(setup, ActAll(setup, c, actions[..|actions| - 1]), actions[|actions| - 1])
  }

  lemma ActSnoc(setup: Setup, c: Core, actions: seq<Action>, a: Action)
    ensures ActAll(setup, c, actions + [a]) == Act(setup, ActAll(setup, c, actions), a)
  {
    assert (actions + [a])[..|actions|] == actions;
  }

  lemma ActOne(setup: Setup, c: Core)
    ensures ActAll(setup, c, []) == c
    ensures forall a :: ActAll(setup, c, [a]) == Act(setup, c, a)
  {
    forall a ensures ActAll(setup, c, [a]) == Act(setup, c, a) {
      assert [a][..0] == [];
    }
  }

  lemma {:induction false} ActAppend(setup: Setup, c: Core, a: seq<Action>, b: seq<Action>)
    ensures ActAll(setup, c, a + b) == ActAll(setup, ActAll(setup, c, a), b)
    decreases |b|
  {
    hide Act;
    if b == [] {
      assert a + b == a;
    } else {
      var last := b[|b| - 1];
      assert a + b == a + b[..|b| - 1] + [last];
      ActSnoc(setup, c, a + b[..|b| - 1], last);
      ActAppend(setup, c, a, b[..|b| - 1]);
    }
  }

  function EmissionActions(e: Emission): seq<Action> {
    match e
    case Content(text) => if text == "" then [] else [Say(text)]
    case Reasoning(text) => if text == "" then [] else [Think(text)]
  }

  function SpeechActions(out: seq<Emission>): seq<Action> {
    if out == [] then [] else EmissionActions(out[0]) + SpeechActions(out[1..])
  }

  function FragmentActions(f: ToolFragment): seq<Action> {
    (if f.id != "" then [ToolStart(f.id, f.name)] else []) + (if f.arguments != "" then [ToolArgs(f.arguments)] else [])
  }

  function FragmentsActions(fragments: seq<ToolFragment>): seq<Action> {
    if fragments == [] then [] else FragmentActions(fragments[0]) + FragmentsActions(fragments[1..])
  }

  function ToolActions(fragments: seq<ToolFragment>): seq<Action> {
    if fragments == [] then [] else [ToolBegin] + FragmentsActions(fragments)
  }

  datatype Translator = Translator(core: Core, normalizer: State, lastUsage: Option<Usage>)

  const INITIAL := Translator(EMPTY, State(START, false), None)

  function ChunkActions(n: State, c: StreamChunk): seq<Action>
    requires n.parser.Valid() && c.choices != []
  {
    var choice := c.choices[0];
    [Start(c.model)]
    + SpeechActions(Deliver(n, choice.content, choice.reasoning).1)
    + ToolActions(choice.toolCalls)
    + (if choice.finishReason.Some? then [Finish(c.usage)] else [])
  }

  function Process(setup: Setup, s: Translator, c: StreamChunk): (r: Translator)
    requires s.normalizer.parser.Valid()
    ensures r.normalizer.parser.Valid()
  {
    if Keepalive(c) then s
    else if c.choices == [] then if c.usage.Some? then s.(lastUsage := c.usage) else s
    else
      Translator(ActAll(setup, s.core, ChunkActions(s.normalizer, c)),
                 Deliver(s.normalizer, c.choices[0].content, c.choices[0].reasoning).0, s.lastUsage)
  }

  function FlushActions(s: Translator): seq<Action>
    requires s.normalizer.parser.Valid()
  {
    SpeechActions(Close(s.normalizer).1) + [Finish(s.lastUsage)]
  }

  function Flushed(setup: Setup, s: Translator): Translator
    requires s.normalizer.parser.Valid()
  {
    s.(core := ActAll(setup, s.core, FlushActions(s)), normalizer := Close(s.normalizer).0)
  }
}
