/** Clients that tell tool calls apart by item id read the same arguments as by order (responses_stream.go). */
module ResponsesItems {
  import opened Chunks
  import opened Options
  import opened ResponsesStream
  import opened ResponsesSnapshot

  function ItemIdOf(setup: Setup, tool: ToolSeen): string {
    Call(tool.id, tool.name, "", 0, tool.custom).ItemId(setup.responseId)
  }

  predicate IsDelta(e: ResponseEvent) {
    e.ArgumentsDelta? || e.InputDelta?
  }

  /** Every delta of arguments or input carries the item id of the tool call added last, and its position among the
      calls as output index, one more if text has been sent. */
  predicate Addressed(setup: Setup, t: seq<ResponseEvent>) {
    forall k :: 0 <= k < |t| && IsDelta(t[k]) ==> AddressedTo(setup, ToolsIn(t[..k]), SaidIn(t[..k]), t[k])
  }

  predicate AddressedTo(setup: Setup, tools: seq<ToolSeen>, said: string, e: ResponseEvent)
    requires IsDelta(e)
  {
    tools != [] && e.itemId == ItemIdOf(setup, tools[|tools| - 1]) &&
    e.index == |tools| - 1 + if said == "" then 0 else 1
  }

  // ---- Reading by item id ----

  function ExtendItem(setup: Setup, tools: seq<ToolSeen>, itemId: string, text: string): seq<ToolSeen> {
    seq(|tools|, i requires 0 <= i < |tools| =>
      if ItemIdOf(setup, tools[i]) == itemId then tools[i].(text := tools[i].text + text) else tools[i])
  }

  function ToolsById(setup: Setup, t: seq<ResponseEvent>): seq<ToolSeen> {
    if t == [] then []
    else
      var (before, e) := (ToolsById(setup, t[..|t| - 1]), t[|t| - 1]);
      if IsDelta(e) then ExtendItem(setup, before, e.itemId, e.text) else SeeTool(before, e)
  }

  predicate DistinctItems(setup: Setup, tools: seq<ToolSeen>) {
    forall i, j :: 0 <= i < j < |tools| ==> ItemIdOf(setup, tools[i]) != ItemIdOf(setup, tools[j])
  }

  lemma ExtendLast(setup: Setup, tools: seq<ToolSeen>, text: string)
    requires tools != [] && DistinctItems(setup, tools)
    ensures ExtendItem(setup, tools, ItemIdOf(setup, tools[|tools| - 1]), text) == Extend(tools, text)
  {
  }

  /** One event keeps the calls there are, and their item ids. */
  lemma SeeKeeps(setup: Setup, tools: seq<ToolSeen>, e: ResponseEvent)
    ensures |tools| <= |SeeTool(tools, e)|
    ensures forall i :: 0 <= i < |tools| ==> ItemIdOf(setup, SeeTool(tools, e)[i]) == ItemIdOf(setup, tools[i])
  {
  }

  lemma {:induction false} SameById(setup: Setup, t: seq<ResponseEvent>)
    requires Addressed(setup, t) && DistinctItems(setup, ToolsIn(t))
    ensures ToolsById(setup, t) == ToolsIn(t)
    decreases |t|
  {
    hide SeeTool, ExtendItem, ItemIdOf;
    if t != [] {
      var (u, e) := (t[..|t| - 1], t[|t| - 1]);
      SeeKeeps(setup, ToolsIn(u), e);
      assert forall k :: 0 <= k < |u| ==> u[..k] == t[..k] && u[k] == t[k];
      SameById(setup, u);
      if IsDelta(e) {
        ExtendLast(setup, ToolsIn(u), e.text);
        SeeDelta(ToolsIn(u), e);
      }
    }
  }

  lemma SeeDelta(tools: seq<ToolSeen>, e: ResponseEvent)
    requires IsDelta(e)
    ensures SeeTool(tools, e) == Extend(tools, e.text)
  {
  }

  // ---- What the translator sends ----

  /** `u` continues `t` without any delta of arguments or input. */
  predicate Silent(t: seq<ResponseEvent>, u: seq<ResponseEvent>) {
    t <= u && forall i :: |t| <= i < |u| ==> !IsDelta(u[i])
  }

  lemma SilentKeeps(setup: Setup, t: seq<ResponseEvent>, u: seq<ResponseEvent>)
    requires Addressed(setup, t) && Silent(t, u)
    ensures Addressed(setup, u)
  {
    hide ToolsIn, SaidIn, AddressedTo;
    assert forall k :: 0 <= k < |t| ==> u[..k] == t[..k] && u[k] == t[k];
  }

  lemma DeltaKeeps(setup: Setup, t: seq<ResponseEvent>, e: ResponseEvent)
    requires Addressed(setup, t) && IsDelta(e) && AddressedTo(setup, ToolsIn(t), SaidIn(t), e)
    ensures Addressed(setup, t + [e])
  {
    hide ToolsIn, SaidIn, AddressedTo;
    assert forall k :: 0 <= k < |t| ==> (t + [e])[..k] == t[..k] && (t + [e])[k] == t[k];
    assert (t + [e])[..|t|] == t;
  }

  lemma SpeechSilent(c: Core, text: string)
    ensures Silent(c.trace, HandleTextCore(c, text).trace) && Silent(c.trace, HandleReasoningCore(c, text).trace)
  {
  }

  lemma ToolAddressed(setup: Setup, c: Core, h: seq<Action>, text: string)
    requires Live(setup, c, h) && Addressed(setup, c.trace)
    ensures Addressed(setup, ToolArguments(setup, c, text).trace)
  {
    hide SaidIn, ToolsIn, DoneIn, CompletedIn, TextOf, CallsOf, AddFragment, Fold, Addressed;
    if c.calls != [] {
      var last := |c.calls| - 1;
      var call := c.calls[last];
      var delta := AddFragment(setup, call, text).1;
      SameItem(setup, CallsOf(h)[last]);
      FragmentKeeps(setup, call, text);
      if delta.Some? {
        var (index, itemId) := (last + c.Offset(), call.ItemId(setup.responseId));
        DeltaKeeps(setup, c.trace, InputDelta(index, itemId, delta.value));
        DeltaKeeps(setup, c.trace, ArgumentsDelta(index, itemId, delta.value));
      }
    }
  }

  lemma SameItem(setup: Setup, call: CallInput)
    ensures StateOf(setup, call).ItemId(setup.responseId) == ItemIdOf(setup, SeenOf(setup, call))
  {
    hide Fold;
    FoldNames(setup, call.id, call.name, call.fragments);
  }

  lemma {:induction false} FoldNames(setup: Setup, id: string, name: string, fragments: seq<string>)
    ensures var call := Fold(setup, id, name, fragments).0;
      call.id == id && call.custom == (name in setup.customTools)
    decreases |fragments|
  {
    if fragments != [] { FoldNames(setup, id, name, fragments[..|fragments| - 1]); }
  }

  lemma ActAddressed(setup: Setup, c: Core, h: seq<Action>, a: Action)
    requires Live(setup, c, h) && Addressed(setup, c.trace) && !a.Finish?
    ensures Addressed(setup, Act(setup, c, a).trace)
  {
    hide Live, Addressed, HandleTextCore, HandleReasoningCore, ToolArguments;
    match a {
      case Start(model) => SilentKeeps(setup, c.trace, Act(setup, c, a).trace);
      case Say(text) =>
        SpeechSilent(c, text);
        SilentKeeps(setup, c.trace, Act(setup, c, a).trace);
      case Think(text) =>
        SpeechSilent(c, text);
        SilentKeeps(setup, c.trace, Act(setup, c, a).trace);
      case ToolBegin =>
      case ToolStart(id, name) => SilentKeeps(setup, c.trace, Act(setup, c, a).trace);
      case ToolArgs(text) => ToolAddressed(setup, c, h, text);
    }
  }

  lemma {:induction false} AllAddressed(setup: Setup, h: seq<Action>)
    requires setup.Valid() && AllProper(h) && Unfinished(h)
    ensures Live(setup, ActAll(setup, EMPTY, h), h) && Addressed(setup, ActAll(setup, EMPTY, h).trace)
    decreases |h|
  {
    hide Live, Addressed, Act, Proper;
    if h == [] {
      NothingAddressed(setup);
    } else {
      var n := |h| - 1;
      var c := ActAll(setup, EMPTY, h[..n]);
      AllAddressed(setup, h[..n]);
      ActAddressed(setup, c, h[..n], h[n]);
      ActLive(setup, c, h[..n], h[n]);
      assert h == h[..n] + [h[n]];
    }
  }

  lemma NothingAddressed(setup: Setup)
    ensures Live(setup, EMPTY, []) && Addressed(setup, EMPTY.trace)
  {
  }

  lemma {:induction false} CloseCallsSilent(setup: Setup, calls: seq<Call>, offset: nat)
    requires forall i :: 0 <= i < |calls| ==> Caught(setup, calls[i])
    ensures Silent([], CloseCalls(setup, calls, offset))
    decreases |calls|
  {
    if calls != [] { CloseCallsSilent(setup, calls[..|calls| - 1], offset); }
  }

  lemma SilentAppend(t: seq<ResponseEvent>, u: seq<ResponseEvent>, v: seq<ResponseEvent>)
    requires Silent(t, u) && Silent([], v)
    ensures Silent(t, u + v)
  {
    hide IsDelta;
    assert forall i :: 0 <= i < |v| ==> (u + v)[|u| + i] == v[i];
  }

  lemma FinishSilent(setup: Setup, c: Core, usage: Option<Usage>)
    requires forall i :: 0 <= i < |c.calls| ==> Caught(setup, c.calls[i])
    ensures Silent(c.trace, FinishCore(setup, c, usage).trace)
  {
    hide CloseCalls, Caught, BuildOutput, Silent;
    var c1 := StopReasoning(CloseText(c));
    var (closing, end) := (CloseCalls(setup, c.calls, c.Offset()), [Completed(c.model, BuildOutput(setup, c), usage)]);
    TextSilent(c);
    CloseCallsSilent(setup, c.calls, c.Offset());
    SilentAppend(c.trace, c1.trace, closing);
    EndSilent(end[0]);
    SilentAppend(c.trace, c1.trace + closing, end);
  }

  lemma TextSilent(c: Core)
    ensures Silent(c.trace, StopReasoning(CloseText(c)).trace)
  {
  }

  lemma EndSilent(e: ResponseEvent)
    ensures !IsDelta(e) ==> Silent([], [e])
  {
  }

  lemma PrefixAddressed(setup: Setup, t: seq<ResponseEvent>, u: seq<ResponseEvent>)
    requires t <= u && Addressed(setup, u)
    ensures Addressed(setup, t)
  {
    hide ToolsIn, SaidIn, AddressedTo;
    assert forall k :: 0 <= k < |t| ==> u[..k] == t[..k] && u[k] == t[k];
  }

  lemma AddressedAt(setup: Setup, t: seq<ResponseEvent>, p: nat, g: seq<Action>)
    requires setup.Valid() && FinishOf(setup, t, p, g) && AllProper(g)
    ensures Addressed(setup, t[..p])
  {
    hide Live, Addressed, Act, ActAll, Proper, FinishCore, SaidIn, ToolsIn, TextOf, CallsOf, FinalItems, Caught;
    var c := ActAll(setup, EMPTY, g);
    AllAddressed(setup, g);
    OutputOf(setup, c, g);
    FinishSilent(setup, c, t[p].usage);
    SilentKeeps(setup, c.trace, t[..p + 1]);
    PrefixAddressed(setup, t[..p], t[..p + 1]);
  }

  /** What holds at `p`, where the message is completed. */
  predicate ReadById(setup: Setup, t: seq<ResponseEvent>, p: nat) {
    p <= |t| && Addressed(setup, t[..p]) &&
    (DistinctItems(setup, ToolsIn(t[..p])) ==> ToolsById(setup, t[..p]) == ToolsIn(t[..p]))
  }

  /** Main result, for every run: until the message is completed, every delta of arguments or input carries the item
      id and the index of its call; so if those ids are distinct, a client that goes by them reads what the final
      snapshot holds. */
  lemma ItemIdsOfRun(setup: Setup, chunks: seq<StreamChunk>)
    requires setup.Valid()
    ensures var t := Whole(setup, chunks).core.trace; exists p :: Snapshot(t, p) && ReadById(setup, t, p)
  {
    hide Snapshot, Explained, FinishOf, RunActions, Proper, Addressed, DistinctItems, ToolsById, Whole;
    var (t, h) := (Whole(setup, chunks).core.trace, RunActions(setup, INITIAL, chunks));
    SnapshotTheorem(setup, chunks);
    RunProper(setup, INITIAL, chunks);
    var p: nat, g: seq<Action> :| CutAt(h, g) && Snapshot(t, p) && FinishOf(setup, t, p, g);
    assert forall i :: 0 <= i < |g| ==> g[i] == h[i];
    AddressedAt(setup, t, p, g);
    SnapshotBound(t, p);
    if DistinctItems(setup, ToolsIn(t[..p])) { SameById(setup, t[..p]); }
  }

  lemma SnapshotBound(t: seq<ResponseEvent>, p: nat)
    requires Snapshot(t, p)
    ensures p < |t|
  {
  }
}
