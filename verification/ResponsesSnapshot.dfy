/** The final snapshot of a Responses stream agrees with the deltas before it, for every input. */
module ResponsesSnapshot {
  import opened Strings
  import opened Chunks
  import opened Options
  import opened Normalizer
  import opened ResponsesStream

  // ---- Reading a trace ----

  /** The text deltas, concatenated. */
  function SaidIn(t: seq<ResponseEvent>): string {
    if t == [] then ""
    else
      var last := t[|t| - 1];
      SaidIn(t[..|t| - 1]) + if last.TextDelta? then last.text else ""
  }

  /** A tool call as the client sees it being added, with the deltas that follow it up to the next one. */
  datatype ToolSeen = ToolSeen(id: string, name: string, custom: bool, text: string)

  function Extend(tools: seq<ToolSeen>, text: string): seq<ToolSeen> {
    if tools == [] then [] else tools[|tools| - 1 := tools[|tools| - 1].(text := tools[|tools| - 1].text + text)]
  }

  function SeeTool(tools: seq<ToolSeen>, e: ResponseEvent): seq<ToolSeen> {
    match e
    case ItemAdded(_, FunctionCall(id, name, _)) => tools + [ToolSeen(id, name, false, "")]
    case ItemAdded(_, CustomCall(id, name, _)) => tools + [ToolSeen(id, name, true, "")]
    case ArgumentsDelta(_, _, text) => Extend(tools, text)
    case InputDelta(_, _, text) => Extend(tools, text)
    case _ => tools
  }

  function ToolsIn(t: seq<ResponseEvent>): seq<ToolSeen> {
    if t == [] then [] else SeeTool(ToolsIn(t[..|t| - 1]), t[|t| - 1])
  }

  /** The output_item.done events, with their indices. */
  function DoneIn(t: seq<ResponseEvent>): seq<(nat, Item)> {
    if t == [] then []
    else
      var last := t[|t| - 1];
      DoneIn(t[..|t| - 1]) + if last.ItemDone? then [(last.index, last.item)] else []
  }

  function CompletedIn(t: seq<ResponseEvent>): nat {
    if t == [] then 0 else CompletedIn(t[..|t| - 1]) + if t[|t| - 1].Completed? then 1 else 0
  }

  lemma ReadSnoc(t: seq<ResponseEvent>, e: ResponseEvent)
    ensures SaidIn(t + [e]) == SaidIn(t) + if e.TextDelta? then e.text else ""
    ensures ToolsIn(t + [e]) == SeeTool(ToolsIn(t), e)
    ensures DoneIn(t + [e]) == DoneIn(t) + if e.ItemDone? then [(e.index, e.item)] else []
    ensures CompletedIn(t + [e]) == CompletedIn(t) + if e.Completed? then 1 else 0
  {
    assert (t + [e])[..|t|] == t;
  }

  /** An event that none of the readings sees. */
  predicate Quiet(e: ResponseEvent) {
    !e.TextDelta? && !e.ItemDone? && !e.Completed? && !e.ArgumentsDelta? && !e.InputDelta? &&
    (e.ItemAdded? ==> e.item.Message?)
  }

  lemma ReadQuiet(t: seq<ResponseEvent>, e: ResponseEvent)
    requires Quiet(e)
    ensures SaidIn(t + [e]) == SaidIn(t) && ToolsIn(t + [e]) == ToolsIn(t) && DoneIn(t + [e]) == DoneIn(t)
    ensures CompletedIn(t + [e]) == CompletedIn(t)
  {
    ReadSnoc(t, e);
    assert SaidIn(t) + "" == SaidIn(t) && DoneIn(t) + [] == DoneIn(t);
  }

  // ---- Reading the actions ----

  /** A tool call as upstream sends it: a start, then fragments. */
  datatype CallInput = CallInput(id: string, name: string, fragments: seq<string>)

  function AddTo(calls: seq<CallInput>, text: string): seq<CallInput> {
    if calls == [] then []
    else calls[|calls| - 1 := calls[|calls| - 1].(fragments := calls[|calls| - 1].fragments + [text])]
  }

  function CallStep(before: seq<CallInput>, a: Action): seq<CallInput> {
    match a
    case ToolStart(id, name) => before + [CallInput(id, name, [])]
    case ToolArgs(text) => AddTo(before, text)
    case _ => before
  }

  function CallsOf(h: seq<Action>): seq<CallInput> {
    if h == [] then [] else CallStep(CallsOf(h[..|h| - 1]), h[|h| - 1])
  }

  function TextOf(h: seq<Action>): string {
    if h == [] then "" else TextOf(h[..|h| - 1]) + if h[|h| - 1].Say? then h[|h| - 1].text else ""
  }

  /** The state and the deltas of one call after its fragments. */
  function Fold(setup: Setup, id: string, name: string, fragments: seq<string>): (Call, string)
    decreases |fragments|
  {
    if fragments == [] then (NewCall(setup, id, name), "")
    else
      var n := |fragments| - 1;
      var (call, deltas) := Fold(setup, id, name, fragments[..n]);
      var (call1, delta) := AddFragment(setup, call, fragments[n]);
      (call1, deltas + if delta == None then "" else delta.value)
  }

  function StateOf(setup: Setup, c: CallInput): Call {
    Fold(setup, c.id, c.name, c.fragments).0
  }

  function SeenOf(setup: Setup, c: CallInput): ToolSeen {
    ToolSeen(c.id, c.name, c.name in setup.customTools, Fold(setup, c.id, c.name, c.fragments).1)
  }

  function StatesOf(setup: Setup, calls: seq<CallInput>): seq<Call> {
    seq(|calls|, i requires 0 <= i < |calls| => StateOf(setup, calls[i]))
  }

  function AllSeen(setup: Setup, calls: seq<CallInput>): seq<ToolSeen> {
    seq(|calls|, i requires 0 <= i < |calls| => SeenOf(setup, calls[i]))
  }

  lemma FoldSnoc(setup: Setup, id: string, name: string, fragments: seq<string>, text: string)
    ensures var (call, deltas) := Fold(setup, id, name, fragments);
      var (call1, delta) := AddFragment(setup, call, text);
      Fold(setup, id, name, fragments + [text]) == (call1, deltas + if delta == None then "" else delta.value)
  {
    assert (fragments + [text])[..|fragments|] == fragments;
  }

  /** A function call's arguments and its deltas are all its fragments; a custom call has streamed as many characters as
      its longest extracted input, so nothing is left to stream at the end. */
  lemma {:induction false} FoldFacts(setup: Setup, id: string, name: string, fragments: seq<string>)
    requires setup.Valid()
    ensures var (call, deltas) := Fold(setup, id, name, fragments);
      call.id == id && call.name == name && call.custom == (name in setup.customTools) &&
      call.arguments == Concat(fragments) &&
      (!call.custom ==> deltas == call.arguments) &&
      (call.custom ==> |deltas| == call.inputEmitted && |setup.extract(call.arguments)| <= call.inputEmitted)
    decreases |fragments|
  {
    if fragments != [] {
      var n := |fragments| - 1;
      FoldFacts(setup, id, name, fragments[..n]);
      assert fragments == fragments[..n] + [fragments[n]];
      ConcatSnoc(fragments[..n], fragments[n]);
    }
  }

  // ---- The invariant until the finish ----

  predicate Unfinished(h: seq<Action>) {
    forall i :: 0 <= i < |h| ==> !h[i].Finish?
  }

  ghost predicate Live(setup: Setup, c: Core, h: seq<Action>) {
    !c.finished && Unfinished(h) && c.outputIndex == 0 &&
    SaidIn(c.trace) == c.textAccum == TextOf(h) && (c.hasText <==> c.textAccum != "") &&
    c.calls == StatesOf(setup, CallsOf(h)) && ToolsIn(c.trace) == AllSeen(setup, CallsOf(h)) &&
    DoneIn(c.trace) == [] && CompletedIn(c.trace) == 0
  }

  /** The normaliser's callbacks and the tool fragments pass on non-empty texts only. */
  predicate Proper(a: Action) {
    (a.Say? ==> a.text != "") && (a.ToolArgs? ==> a.text != "")
  }

  lemma HistorySnoc(h: seq<Action>, a: Action)
    ensures TextOf(h + [a]) == TextOf(h) + if a.Say? then a.text else ""
    ensures CallsOf(h + [a]) == CallStep(CallsOf(h), a)
    ensures Unfinished(h) && !a.Finish? ==> Unfinished(h + [a])
  {
    assert (h + [a])[..|h|] == h;
  }

  lemma CloseReasoningReads(c: Core)
    ensures var d := CloseReasoning(c);
      SaidIn(d.trace) == SaidIn(c.trace) && ToolsIn(d.trace) == ToolsIn(c.trace) &&
      DoneIn(d.trace) == DoneIn(c.trace) &&
      CompletedIn(d.trace) == CompletedIn(c.trace)
  {
    hide SaidIn, ToolsIn, DoneIn, CompletedIn;
    ReadQuiet(c.trace, ReasoningDone(c.outputIndex, c.contentIndex));
  }

  lemma AddMessageReads(c: Core)
    ensures var d := AddMessage(c);
      SaidIn(d.trace) == SaidIn(c.trace) && ToolsIn(d.trace) == ToolsIn(c.trace) &&
      DoneIn(d.trace) == DoneIn(c.trace) &&
      CompletedIn(d.trace) == CompletedIn(c.trace)
  {
    hide SaidIn, ToolsIn, DoneIn, CompletedIn;
    var e := ItemAdded(c.outputIndex, Message(""));
    ReadQuiet(c.trace, e);
    ReadQuiet(c.trace + [e], PartAdded(c.outputIndex, c.contentIndex));
  }

  lemma SayReads(c: Core, text: string)
    ensures var d := HandleTextCore(c, text);
      SaidIn(d.trace) == SaidIn(c.trace) + text && ToolsIn(d.trace) == ToolsIn(c.trace) &&
      DoneIn(d.trace) == DoneIn(c.trace) && CompletedIn(d.trace) == CompletedIn(c.trace) &&
      d.hasText && d.textAccum == c.textAccum + text && d.calls == c.calls && d.finished == c.finished &&
      d.outputIndex == c.outputIndex
  {
    hide SaidIn, ToolsIn, DoneIn, CompletedIn;
    CloseReasoningReads(c);
    var c1 := CloseReasoning(c);
    AddMessageReads(c1.(hasText := true));
    var c2 := if c1.hasText then c1 else AddMessage(c1.(hasText := true));
    ReadSnoc(c2.trace, TextDelta(c2.outputIndex, c2.contentIndex, text));
    assert DoneIn(c2.trace) + [] == DoneIn(c2.trace);
  }

  lemma ThinkReads(c: Core, text: string)
    ensures var d := HandleReasoningCore(c, text);
      SaidIn(d.trace) == SaidIn(c.trace) && ToolsIn(d.trace) == ToolsIn(c.trace) &&
      DoneIn(d.trace) == DoneIn(c.trace) &&
      CompletedIn(d.trace) == CompletedIn(c.trace) &&
      d.hasText == c.hasText && d.textAccum == c.textAccum && d.calls == c.calls && d.finished == c.finished &&
      d.outputIndex == c.outputIndex
  {
    hide SaidIn, ToolsIn, DoneIn, CompletedIn;
    AddMessageReads(c.(inReasoning := true));
    var c1 := if c.inReasoning then c else AddMessage(c.(inReasoning := true));
    ReadQuiet(c1.trace, ReasoningDelta(c1.outputIndex, c1.contentIndex, text));
  }

  lemma StartToolLive(setup: Setup, c: Core, h: seq<Action>, id: string, name: string)
    requires Live(setup, c, h)
    ensures Live(setup, StartTool(setup, c, id, name), h + [ToolStart(id, name)])
  {
    hide SaidIn, ToolsIn, DoneIn, CompletedIn, TextOf, CallsOf;
    var call := NewCall(setup, id, name);
    var item := if call.custom then CustomCall(id, name, "") else FunctionCall(id, name, "");
    var e := ItemAdded(|c.calls| + c.Offset(), item);
    HistorySnoc(h, ToolStart(id, name));
    ReadSnoc(c.trace, e);
    var calls, x := CallsOf(h), CallInput(id, name, []);
    assert StatesOf(setup, calls + [x]) == StatesOf(setup, calls) + [call];
    assert AllSeen(setup, calls + [x]) == AllSeen(setup, calls) + [ToolSeen(id, name, call.custom, "")];
    assert SaidIn(c.trace) + "" == SaidIn(c.trace) && TextOf(h) + "" == TextOf(h) &&
      DoneIn(c.trace) + [] == DoneIn(c.trace);
  }

  /** The lists of call states and of calls seen, when the last call gets one more fragment. */
  lemma AddToLast(setup: Setup, calls: seq<CallInput>, text: string)
    requires calls != []
    ensures var last := |calls| - 1;
      var (call1, delta) := AddFragment(setup, StateOf(setup, calls[last]), text);
      StatesOf(setup, AddTo(calls, text)) == StatesOf(setup, calls)[last := call1] &&
      AllSeen(setup, AddTo(calls, text)) == Extend(AllSeen(setup, calls), if delta == None then "" else delta.value)
  {
    hide Fold, AddFragment;
    var last := |calls| - 1;
    FoldSnoc(setup, calls[last].id, calls[last].name, calls[last].fragments, text);
  }

  lemma ToolArgsLive(setup: Setup, c: Core, h: seq<Action>, text: string)
    requires Live(setup, c, h)
    ensures Live(setup, ToolArguments(setup, c, text), h + [ToolArgs(text)])
  {
    hide SaidIn, ToolsIn, DoneIn, CompletedIn, TextOf, CallsOf, AddFragment, Fold;
    HistorySnoc(h, ToolArgs(text));
    assert TextOf(h) + "" == TextOf(h);
    if c.calls != [] {
      var last := |c.calls| - 1;
      AddToLast(setup, CallsOf(h), text);
      var call := c.calls[last];
      var delta := AddFragment(setup, call, text).1;
      if delta.Some? {
        FragmentKeeps(setup, call, text);
        ReadSnoc(c.trace, InputDelta(last + c.Offset(), call.ItemId(setup.responseId), delta.value));
        ReadSnoc(c.trace, ArgumentsDelta(last + c.Offset(), call.ItemId(setup.responseId), delta.value));
        assert SaidIn(c.trace) + "" == SaidIn(c.trace) && DoneIn(c.trace) + [] == DoneIn(c.trace);
      } else {
        ExtendNothing(AllSeen(setup, CallsOf(h)));
      }
    }
  }

  lemma FragmentKeeps(setup: Setup, call: Call, text: string)
    ensures var call1 := AddFragment(setup, call, text).0;
      call1.id == call.id && call1.name == call.name && call1.custom == call.custom
  {
  }

  lemma ExtendNothing(tools: seq<ToolSeen>)
    ensures Extend(tools, "") == tools
  {
    if tools != [] { assert tools[|tools| - 1].text + "" == tools[|tools| - 1].text; }
  }

  lemma ActLive(setup: Setup, c: Core, h: seq<Action>, a: Action)
    requires Live(setup, c, h) && Proper(a) && !a.Finish?
    ensures Live(setup, Act(setup, c, a), h + [a])
  {
    hide SaidIn, ToolsIn, DoneIn, CompletedIn, TextOf, CallsOf, StatesOf, AllSeen, HandleTextCore,
      HandleReasoningCore, StartTool, ToolArguments;
    HistorySnoc(h, a);
    assert TextOf(h) + "" == TextOf(h);
    match a {
      case Start(model) => ReadQuiet(c.trace, Created(model));
      case Say(text) => SayReads(c, text);
      case Think(text) => ThinkReads(c, text);
      case ToolBegin =>
      case ToolStart(id, name) => StartToolLive(setup, c, h, id, name);
      case ToolArgs(text) => ToolArgsLive(setup, c, h, text);
    }
  }

  // ---- The finish ----

  function Numbered(items: seq<Item>, offset: nat): seq<(nat, Item)> {
    seq(|items|, i requires 0 <= i < |items| => (i + offset, items[i]))
  }

  /** Nothing of a custom call's input is left to stream. */
  ghost predicate Caught(setup: Setup, call: Call) {
    call.custom ==> |setup.extract(call.arguments)| <= call.inputEmitted
  }

  lemma CloseCallReads(setup: Setup, t: seq<ResponseEvent>, call: Call, index: nat)
    requires Caught(setup, call)
    ensures var u := t + CloseCall(setup, call, index);
      SaidIn(u) == SaidIn(t) && ToolsIn(u) == ToolsIn(t) && CompletedIn(u) == CompletedIn(t) &&
      DoneIn(u) == DoneIn(t) + [(index, FinalItem(setup, call))]
  {
    hide SaidIn, ToolsIn, DoneIn, CompletedIn, FinalItem;
    var itemId := call.ItemId(setup.responseId);
    var e := if call.custom then InputDone(index, itemId, setup.extract(call.arguments))
             else ArgumentsDone(index, itemId, call.arguments);
    var done := ItemDone(index, FinalItem(setup, call));
    assert [] + [e] == [e];
    assert CloseCall(setup, call, index) == [e] + [done];
    assert t + ([e] + [done]) == t + [e] + [done];
    ReadQuiet(t, e);
    ReadSnoc(t + [e], done);
    assert SaidIn(t + [e]) + "" == SaidIn(t + [e]);
  }

  lemma {:induction false} CloseCallsReads(setup: Setup, t: seq<ResponseEvent>, calls: seq<Call>, offset: nat)
    requires forall i :: 0 <= i < |calls| ==> Caught(setup, calls[i])
    ensures var u := t + CloseCalls(setup, calls, offset);
      SaidIn(u) == SaidIn(t) && ToolsIn(u) == ToolsIn(t) && CompletedIn(u) == CompletedIn(t) &&
      DoneIn(u) == DoneIn(t) + Numbered(FinalItems(setup, calls), offset)
    ensures |FinalItems(setup, calls)| == |calls|
    ensures forall i :: 0 <= i < |calls| ==> FinalItems(setup, calls)[i] == FinalItem(setup, calls[i])
    decreases |calls|
  {
    hide SaidIn, ToolsIn, DoneIn, CompletedIn, FinalItem, CloseCall, Caught;
    if calls == [] {
      assert t + CloseCalls(setup, calls, offset) == t && DoneIn(t) + Numbered([], offset) == DoneIn(t);
    } else {
      var n := |calls| - 1;
      var (front, last) := (CloseCalls(setup, calls[..n], offset), CloseCall(setup, calls[n], n + offset));
      CloseCallsReads(setup, t, calls[..n], offset);
      CloseCallReads(setup, t + front, calls[n], n + offset);
      assert t + (front + last) == t + front + last;
      var (items, item) := (FinalItems(setup, calls[..n]), FinalItem(setup, calls[n]));
      assert Numbered(items + [item], offset) == Numbered(items, offset) + [(n + offset, item)];
      assert DoneIn(t) + Numbered(items, offset) + [(n + offset, item)] == DoneIn(t) + Numbered(items + [item], offset);
    }
  }

  lemma CloseTextReads(c: Core)
    requires c.outputIndex == 0
    ensures var d := StopReasoning(CloseText(c));
      SaidIn(d.trace) == SaidIn(c.trace) && ToolsIn(d.trace) == ToolsIn(c.trace) &&
      CompletedIn(d.trace) == CompletedIn(c.trace) &&
      DoneIn(d.trace) == DoneIn(c.trace) + Numbered(if c.hasText then [Message(c.textAccum)] else [], 0)
  {
    hide SaidIn, ToolsIn, DoneIn, CompletedIn;
    var t := c.trace;
    if c.hasText {
      var (e1, e2, e3) := (TextDone(0, c.contentIndex, c.textAccum), PartDone(0, c.contentIndex, c.textAccum),
                           ItemDone(0, Message(c.textAccum)));
      ReadQuiet(t, e1);
      ReadQuiet(t + [e1], e2);
      ReadSnoc(t + [e1] + [e2], e3);
      assert SaidIn(t) + "" == SaidIn(t);
      assert Numbered([Message(c.textAccum)], 0) == [(0, Message(c.textAccum))];
    } else {
      assert DoneIn(t) + Numbered([], 0) == DoneIn(t);
    }
    var d := CloseText(c);
    ReadQuiet(d.trace, ReasoningDone(d.outputIndex, d.contentIndex));
  }

  /** An output item and the tool call the client saw. */
  predicate Fits(seen: ToolSeen, item: Item) {
    if seen.custom then item.CustomCall? && item.callId == seen.id && item.name == seen.name
    else item == FunctionCall(seen.id, seen.name, seen.text)
  }

  /** What the final output must be, given what was streamed before it. */
  predicate OutputFits(output: seq<Item>, said: string, tools: seq<ToolSeen>) {
    var offset := if said == "" then 0 else 1;
    |output| == offset + |tools| && (said != "" ==> output[0] == Message(said)) &&
    forall k :: 0 <= k < |tools| ==> Fits(tools[k], output[offset + k])
  }

  /** `t` has its one completed event at `p`, the output there is what the deltas before it add up to, and the
      output_item.done events are the items of that output, each at its position. */
  predicate Snapshot(t: seq<ResponseEvent>, p: nat) {
    p < |t| && t[p].Completed? && CompletedIn(t) == 1 &&
    OutputFits(t[p].output, SaidIn(t[..p]), ToolsIn(t[..p])) && DoneIn(t) == Numbered(t[p].output, 0)
  }

  /** The same in terms of what upstream had sent by then: the calls of the history `g`, and their final items. */
  predicate Explained(setup: Setup, t: seq<ResponseEvent>, p: nat, g: seq<Action>) {
    p < |t| && t[p].Completed? && SaidIn(t[..p]) == TextOf(g) && ToolsIn(t[..p]) == AllSeen(setup, CallsOf(g)) &&
    t[p].output == (if TextOf(g) == "" then [] else [Message(TextOf(g))]) +
    FinalItems(setup, StatesOf(setup, CallsOf(g)))
  }

  /** And the completed event ends the finish of `g`, which holds no earlier finish. */
  ghost predicate FinishOf(setup: Setup, t: seq<ResponseEvent>, p: nat, g: seq<Action>) {
    p < |t| && t[p].Completed? && Unfinished(g) &&
    t[..p + 1] == FinishCore(setup, ActAll(setup, EMPTY, g), t[p].usage).trace
  }

  lemma OutputOf(setup: Setup, c: Core, h: seq<Action>)
    requires setup.Valid() && Live(setup, c, h)
    ensures OutputFits(BuildOutput(setup, c), SaidIn(c.trace), ToolsIn(c.trace))
    ensures forall i :: 0 <= i < |c.calls| ==> Caught(setup, c.calls[i])
  {
    hide SaidIn, ToolsIn, DoneIn, CompletedIn, TextOf, CallsOf, FinalItem, Caught;
    var calls := CallsOf(h);
    forall i | 0 <= i < |c.calls|
      ensures Caught(setup, c.calls[i]) && Fits(SeenOf(setup, calls[i]), FinalItem(setup, c.calls[i]))
    {
      CallFits(setup, calls[i]);
    }
    CloseCallsReads(setup, [], c.calls, 0);
  }

  lemma CallFits(setup: Setup, call: CallInput)
    requires setup.Valid()
    ensures Caught(setup, StateOf(setup, call)) && Fits(SeenOf(setup, call), FinalItem(setup, StateOf(setup, call)))
  {
    hide Fold;
    FoldFacts(setup, call.id, call.name, call.fragments);
  }

  lemma FinishSnapshot(setup: Setup, c: Core, h: seq<Action>, usage: Option<Usage>)
    requires setup.Valid() && Live(setup, c, h) && c == ActAll(setup, EMPTY, h)
    ensures var d := FinishCore(setup, c, usage);
      d.finished && |d.trace| > 0 && Snapshot(d.trace, |d.trace| - 1) && Explained(setup, d.trace, |d.trace| - 1, h) &&
      FinishOf(setup, d.trace, |d.trace| - 1, h) &&
      d.trace[|d.trace| - 1].Completed? && d.trace[|d.trace| - 1].usage == usage
  {
    hide SaidIn, ToolsIn, DoneIn, CompletedIn, TextOf, CallsOf, FinalItems, StatesOf, AllSeen, Snapshot, FinishCore,
      ActAll, BuildOutput;
    FinishReads(setup, c, h, usage);
    var t := FinishCore(setup, c, usage).trace;
    assert t[..|t| - 1 + 1] == t;
    OutputFrom(setup, c, h);
  }

  lemma OutputFrom(setup: Setup, c: Core, h: seq<Action>)
    requires Live(setup, c, h)
    ensures BuildOutput(setup, c) ==
      (if TextOf(h) == "" then [] else [Message(TextOf(h))]) + FinalItems(setup, StatesOf(setup, CallsOf(h)))
  {
    hide SaidIn, ToolsIn, DoneIn, CompletedIn, TextOf, CallsOf, FinalItems, StatesOf, AllSeen;
  }

  lemma FinishReads(setup: Setup, c: Core, h: seq<Action>, usage: Option<Usage>)
    requires setup.Valid() && Live(setup, c, h)
    ensures var d := FinishCore(setup, c, usage);
      var last := |d.trace| - 1;
      d.finished && last >= 0 && Snapshot(d.trace, last) &&
      d.trace[last] == Completed(c.model, BuildOutput(setup, c), usage) &&
      SaidIn(d.trace[..last]) == SaidIn(c.trace) && ToolsIn(d.trace[..last]) == ToolsIn(c.trace)
  {
    hide SaidIn, ToolsIn, DoneIn, CompletedIn, TextOf, CallsOf, FinalItems, CloseCalls, OutputFits, Caught, StatesOf,
      AllSeen;
    OutputOf(setup, c, h);
    CloseTextReads(c);
    var c1 := StopReasoning(CloseText(c));
    var pre := c1.trace + CloseCalls(setup, c.calls, c.Offset());
    var output := BuildOutput(setup, c);
    CloseCallsReads(setup, c1.trace, c.calls, c.Offset());
    var end := Completed(c.model, output, usage);
    ReadSnoc(pre, end);
    var t := FinishCore(setup, c, usage).trace;
    assert t == pre + [end] && t[..|pre|] == pre && t[|pre|] == end;
    var front := if c.hasText then [Message(c.textAccum)] else [];
    assert [] + Numbered(front, 0) + Numbered(FinalItems(setup, c.calls), c.Offset()) == Numbered(output, 0);
    assert DoneIn(pre) + [] == DoneIn(pre);
  }

  // ---- After the finish ----

  lemma AfterFinish(setup: Setup, c: Core, a: Action)
    requires c.finished
    ensures var d := Act(setup, c, a);
      d.finished && c.trace <= d.trace && DoneIn(d.trace) == DoneIn(c.trace) &&
      CompletedIn(d.trace) == CompletedIn(c.trace)
  {
    hide SaidIn, ToolsIn, DoneIn, CompletedIn;
    match a {
      case Start(model) => ReadQuiet(c.trace, Created(model));
      case Say(text) => SayReads(c, text);
      case Think(text) => ThinkReads(c, text);
      case ToolBegin =>
      case ToolStart(id, name) => ToolEvents(c.trace, StartTool(setup, c, id, name).trace);
      case ToolArgs(text) => ToolEvents(c.trace, ToolArguments(setup, c, text).trace);
      case Finish(usage) =>
    }
  }

  /** One more event that is neither a done item nor the completion. */
  lemma ToolEvents(t: seq<ResponseEvent>, u: seq<ResponseEvent>)
    ensures t <= u && |u| == |t| + 1 && !u[|t|].ItemDone? && !u[|t|].Completed? ==>
      DoneIn(u) == DoneIn(t) && CompletedIn(u) == CompletedIn(t)
  {
    hide SaidIn, ToolsIn, DoneIn, CompletedIn;
    if t <= u && |u| == |t| + 1 {
      ReadSnoc(t, u[|t|]);
      assert u == t + [u[|t|]];
      assert DoneIn(t) + [] == DoneIn(t);
    }
  }

  lemma SnapshotStays(setup: Setup, t: seq<ResponseEvent>, u: seq<ResponseEvent>, p: nat, g: seq<Action>)
    requires Snapshot(t, p) && t <= u && DoneIn(u) == DoneIn(t) && CompletedIn(u) == CompletedIn(t)
    requires Explained(setup, t, p, g) && FinishOf(setup, t, p, g)
    ensures Snapshot(u, p) && Explained(setup, u, p, g) && FinishOf(setup, u, p, g)
  {
    hide SaidIn, ToolsIn, DoneIn, CompletedIn, OutputFits;
    assert u[..p] == t[..p] && u[p] == t[p] && u[..p + 1] == t[..p + 1];
  }

  /** `g` is everything in `h` before its first finish. */
  predicate CutAt(h: seq<Action>, g: seq<Action>) {
    g <= h && |g| < |h| && Unfinished(g) && h[|g|].Finish?
  }

  lemma CutSnoc(h: seq<Action>, a: Action)
    ensures forall g :: CutAt(h, g) ==> CutAt(h + [a], g)
    ensures a.Finish? && Unfinished(h) ==> CutAt(h + [a], h)
  {
  }

  lemma UnfinishedOf(setup: Setup, t: seq<ResponseEvent>, p: nat, g: seq<Action>)
    requires FinishOf(setup, t, p, g)
    ensures Unfinished(g)
  {
  }

  /** There is only one such part. */
  lemma CutOnce(h: seq<Action>, g: seq<Action>, k: seq<Action>)
    requires CutAt(h, g) && CutAt(h, k)
    ensures g == k
  {
    hide Unfinished;
    Inside(h, k, |g|);
    Inside(h, g, |k|);
  }

  lemma Inside(h: seq<Action>, g: seq<Action>, i: nat)
    requires g <= h && Unfinished(g) && i < |h|
    ensures i < |g| ==> !h[i].Finish?
  {
  }

  /** And the usage in it is that of the finish behind `g`. */
  predicate Settles(h: seq<Action>, g: seq<Action>, t: seq<ResponseEvent>, p: nat) {
    |g| < |h| && h[|g|].Finish? && p < |t| && t[p].Completed? && t[p].usage == h[|g|].usage
  }

  lemma SettlesStays(h: seq<Action>, a: Action, g: seq<Action>, t: seq<ResponseEvent>, u: seq<ResponseEvent>, p: nat)
    requires Settles(h, g, t, p) && t <= u
    ensures Settles(h + [a], g, u, p)
  {
  }

  /** Either the stream is live, or its snapshot has been sent. */
  ghost predicate Good(setup: Setup, c: Core, h: seq<Action>) {
    if c.finished then
      exists p: nat, g: seq<Action> :: CutAt(h, g) && Settles(h, g, c.trace, p) && Snapshot(c.trace, p) &&
        Explained(setup, c.trace, p, g) && FinishOf(setup, c.trace, p, g)
    else Live(setup, c, h)
  }

  lemma ActGood(setup: Setup, c: Core, h: seq<Action>, a: Action)
    requires setup.Valid() && Good(setup, c, h) && Proper(a) && c == ActAll(setup, EMPTY, h)
    ensures Good(setup, Act(setup, c, a), h + [a])
    ensures a.Finish? ==> Act(setup, c, a).finished
  {
    hide Live, Snapshot, Explained, FinishOf, FinishCore, CutAt, Unfinished, Settles;
    CutSnoc(h, a);
    if c.finished {
      var p: nat, g: seq<Action> :| CutAt(h, g) && Settles(h, g, c.trace, p) && Snapshot(c.trace, p) &&
        Explained(setup, c.trace, p, g) && FinishOf(setup, c.trace, p, g);
      AfterFinish(setup, c, a);
      SnapshotStays(setup, c.trace, Act(setup, c, a).trace, p, g);
      SettlesStays(h, a, g, c.trace, Act(setup, c, a).trace, p);
      assert CutAt(h + [a], g);
    } else if a.Finish? {
      FinishSnapshot(setup, c, h, a.usage);
      var t := FinishCore(setup, c, a.usage).trace;
      UnfinishedOf(setup, t, |t| - 1, h);
      SettledAt(h, a, t);
      assert CutAt(h + [a], h) && Snapshot(t, |t| - 1) && Explained(setup, t, |t| - 1, h) &&
        FinishOf(setup, t, |t| - 1, h);
    } else {
      ActLive(setup, c, h, a);
      StillUnfinished(setup, c, a);
    }
  }

  lemma SettledAt(h: seq<Action>, a: Action, t: seq<ResponseEvent>)
    requires a.Finish? && t != [] && t[|t| - 1].Completed? && t[|t| - 1].usage == a.usage
    ensures Settles(h + [a], h, t, |t| - 1)
  {
  }

  lemma StillUnfinished(setup: Setup, c: Core, a: Action)
    requires !c.finished && !a.Finish?
    ensures !Act(setup, c, a).finished
  {
  }

  lemma {:induction false} AllGood(setup: Setup, h: seq<Action>)
    requires setup.Valid() && forall i :: 0 <= i < |h| ==> Proper(h[i])
    ensures Good(setup, ActAll(setup, EMPTY, h), h)
    ensures h != [] && h[|h| - 1].Finish? ==> ActAll(setup, EMPTY, h).finished
    decreases |h|
  {
    hide Good, Act, Proper;
    if h == [] {
      EmptyGood(setup);
    } else {
      var n := |h| - 1;
      AllGood(setup, h[..n]);
      ActGood(setup, ActAll(setup, EMPTY, h[..n]), h[..n], h[n]);
      assert h == h[..n] + [h[n]];
    }
  }

  lemma EmptyGood(setup: Setup)
    ensures Good(setup, EMPTY, [])
  {
  }

  // ---- Whole runs ----

  function Chunked(setup: Setup, s: Translator, chunks: seq<StreamChunk>): (r: Translator)
    requires s.normalizer.parser.Valid()
    ensures r.normalizer.parser.Valid()
    decreases chunks
  {
    if chunks == [] then s else Chunked(setup, Process(setup, s, chunks[0]), chunks[1..])
  }

  function Whole(setup: Setup, chunks: seq<StreamChunk>): Translator {
    Flushed(setup, Chunked(setup, INITIAL, chunks))
  }

  /** Everything the chunks make the translator do, then the flush. */
  function RunActions(setup: Setup, s: Translator, chunks: seq<StreamChunk>): seq<Action>
    requires s.normalizer.parser.Valid()
    decreases chunks
  {
    if chunks == [] then FlushActions(s)
    else
      (if Bearing(chunks[0]) then ChunkActions(s.normalizer, chunks[0]) else [])
      + RunActions(setup, Process(setup, s, chunks[0]), chunks[1..])
  }

  lemma {:induction false} RunIsActions(setup: Setup, s: Translator, chunks: seq<StreamChunk>)
    requires s.normalizer.parser.Valid()
    ensures Flushed(setup, Chunked(setup, s, chunks)).core == ActAll(setup, s.core, RunActions(setup, s, chunks))
    decreases chunks
  {
    hide ActAll, ChunkActions, FlushActions, Deliver, Keepalive;
    if chunks != [] {
      var next := Process(setup, s, chunks[0]);
      RunIsActions(setup, next, chunks[1..]);
      if Bearing(chunks[0]) {
        ActAppend(setup, s.core, ChunkActions(s.normalizer, chunks[0]), RunActions(setup, next, chunks[1..]));
      } else {
        assert [] + RunActions(setup, next, chunks[1..]) == RunActions(setup, next, chunks[1..]);
      }
    }
  }

  predicate AllProper(h: seq<Action>) {
    forall i :: 0 <= i < |h| ==> Proper(h[i])
  }

  lemma {:induction false} SpeechProper(out: seq<Emission>)
    ensures AllProper(SpeechActions(out))
  {
    if out != [] { SpeechProper(out[1..]); }
  }

  lemma {:induction false} FragmentsProper(fragments: seq<ToolFragment>)
    ensures AllProper(FragmentsActions(fragments))
  {
    if fragments != [] { FragmentsProper(fragments[1..]); }
  }

  lemma ChunkProper(n: State, c: StreamChunk)
    requires n.parser.Valid() && c.choices != []
    ensures AllProper(ChunkActions(n, c))
  {
    hide SpeechActions, FragmentsActions, Deliver;
    SpeechProper(Deliver(n, c.choices[0].content, c.choices[0].reasoning).1);
    FragmentsProper(c.choices[0].toolCalls);
  }

  lemma {:induction false} RunProper(setup: Setup, s: Translator, chunks: seq<StreamChunk>)
    requires s.normalizer.parser.Valid()
    ensures var h := RunActions(setup, s, chunks); AllProper(h) && h != [] && h[|h| - 1].Finish?
    decreases chunks
  {
    hide ChunkActions, SpeechActions, Close, Keepalive, Process, Proper;
    if chunks == [] {
      SpeechProper(Close(s.normalizer).1);
      FinishProper(s.lastUsage);
    } else {
      if Bearing(chunks[0]) { ChunkProper(s.normalizer, chunks[0]); }
      RunProper(setup, Process(setup, s, chunks[0]), chunks[1..]);
    }
  }

  lemma FinishProper(usage: Option<Usage>)
    ensures Proper(Finish(usage))
  {
  }

  /** Main result, for every input: a run ended by Flush has exactly one response.completed. Its message text and the
      arguments of each function call are the concatenation of the deltas before it, its calls are those added before
      it, in order, the done items are exactly its output, each with its position as index, and its usage is that of the
      finish. */
  lemma SnapshotTheorem(setup: Setup, chunks: seq<StreamChunk>)
    requires setup.Valid()
    ensures var t := Whole(setup, chunks).core.trace;
      var h := RunActions(setup, INITIAL, chunks);
      exists p: nat, g: seq<Action> :: CutAt(h, g) && Settles(h, g, t, p) && Snapshot(t, p) &&
        Explained(setup, t, p, g) &&
        FinishOf(setup, t, p, g)
  {
    hide Snapshot, Explained, FinishOf, Live, ActAll, RunActions, Proper, CutAt, Settles;
    var h := RunActions(setup, INITIAL, chunks);
    RunIsActions(setup, INITIAL, chunks);
    RunProper(setup, INITIAL, chunks);
    AllGood(setup, h);
    assert INITIAL.core == EMPTY;
    var t := ActAll(setup, EMPTY, h).trace;
    var p: nat, g: seq<Action> :| CutAt(h, g) && Settles(h, g, t, p) && Snapshot(t, p) && Explained(setup, t, p, g) &&
      FinishOf(setup, t, p, g);
    assert Whole(setup, chunks).core.trace == t;
  }
}
