/** Streaming the input of custom tools, and the indices of added tool calls. */
module ResponsesCustom {
  import opened Strings
  import opened Chunks
  import opened Options
  import opened ResponsesStream
  import opened ResponsesSnapshot

  /** The input extracted from the first `k` fragments. */
  function InputAt(setup: Setup, fragments: seq<string>, k: nat): string
    requires k <= |fragments|
  {
    setup.extract(Concat(fragments[..k]))
  }

  /** What has been streamed after `k` fragments. */
  function StreamedAt(setup: Setup, id: string, name: string, fragments: seq<string>, k: nat): string
    requires k <= |fragments|
  {
    Fold(setup, id, name, fragments[..k]).1
  }

  lemma StreamStep(setup: Setup, id: string, name: string, fragments: seq<string>, k: nat)
    requires setup.Valid() && name in setup.customTools && k < |fragments|
    ensures var (was, input) := (StreamedAt(setup, id, name, fragments, k), InputAt(setup, fragments, k + 1));
      StreamedAt(setup, id, name, fragments, k + 1) == was + if |input| > |was| then input[|was|..] else ""
  {
    var front := fragments[..k];
    assert fragments[..k + 1] == front + [fragments[k]];
    FoldFacts(setup, id, name, front);
    FoldSnoc(setup, id, name, front, fragments[k]);
    ConcatSnoc(front, fragments[k]);
  }

  lemma StreamStart(setup: Setup, id: string, name: string, fragments: seq<string>)
    requires setup.Valid()
    ensures StreamedAt(setup, id, name, fragments, 0) == "" == InputAt(setup, fragments, 0)
  {
    assert fragments[..0] == [];
  }

  /** Main result on lengths, for any extraction: what is streamed is as long as the longest input extracted so far. */
  lemma {:induction false} StreamedLength(setup: Setup, id: string, name: string, fragments: seq<string>, k: nat)
    requires setup.Valid() && name in setup.customTools && k <= |fragments|
    ensures forall i :: 0 <= i <= k ==> |InputAt(setup, fragments, i)| <= |StreamedAt(setup, id, name, fragments, k)|
    ensures exists i :: 0 <= i <= k && |InputAt(setup, fragments, i)| == |StreamedAt(setup, id, name, fragments, k)|
    decreases k
  {
    hide InputAt, StreamedAt;
    if k == 0 {
      StreamStart(setup, id, name, fragments);
    } else {
      StreamedLength(setup, id, name, fragments, k - 1);
      StreamStep(setup, id, name, fragments, k - 1);
      var i :| 0 <= i <= k - 1 && |InputAt(setup, fragments, i)| == |StreamedAt(setup, id, name, fragments, k - 1)|;
      if |InputAt(setup, fragments, k)| > |InputAt(setup, fragments, i)| {
        assert |InputAt(setup, fragments, k)| == |StreamedAt(setup, id, name, fragments, k)|;
      } else {
        assert |InputAt(setup, fragments, i)| == |StreamedAt(setup, id, name, fragments, k)|;
      }
    }
  }

  /** What is streamed equals what is extracted at every moment up to `n`. */
  predicate Faithful(setup: Setup, id: string, name: string, fragments: seq<string>, n: nat)
    requires n <= |fragments|
  {
    forall k :: 0 <= k <= n ==> StreamedAt(setup, id, name, fragments, k) == InputAt(setup, fragments, k)
  }

  /** Every extracted input continues the one before. */
  predicate PrefixMonotone(setup: Setup, fragments: seq<string>, n: nat)
    requires n <= |fragments|
  {
    forall k :: 0 <= k < n ==> InputAt(setup, fragments, k) <= InputAt(setup, fragments, k + 1)
  }

  /** Main result, exact: the deltas spell the input at every moment if and only if extraction is prefix-monotone. */
  lemma {:induction false} FaithfulIff(setup: Setup, id: string, name: string, fragments: seq<string>, n: nat)
    requires setup.Valid() && name in setup.customTools && n <= |fragments|
    ensures Faithful(setup, id, name, fragments, n) <==> PrefixMonotone(setup, fragments, n)
    decreases n
  {
    hide InputAt, StreamedAt;
    if n == 0 {
      StreamStart(setup, id, name, fragments);
    } else {
      FaithfulIff(setup, id, name, fragments, n - 1);
      StreamStep(setup, id, name, fragments, n - 1);
      var (was, input) := (StreamedAt(setup, id, name, fragments, n - 1), InputAt(setup, fragments, n));
      if Faithful(setup, id, name, fragments, n - 1) {
        assert was <= input <==> StreamedAt(setup, id, name, fragments, n) == input;
      }
      assert Faithful(setup, id, name, fragments, n) <==>
        Faithful(setup, id, name, fragments, n - 1) && StreamedAt(setup, id, name, fragments, n) == input;
      assert PrefixMonotone(setup, fragments, n) <==>
        PrefixMonotone(setup, fragments, n - 1) && InputAt(setup, fragments, n - 1) <= input;
    }
  }

  /** The length of the longest input extracted from at most `k` fragments. */
  function Longest(setup: Setup, fragments: seq<string>, k: nat): nat
    requires k <= |fragments|
  {
    var length := |InputAt(setup, fragments, k)|;
    if k == 0 then length
    else if length > Longest(setup, fragments, k - 1) then length else Longest(setup, fragments, k - 1)
  }

  /** If the input after `k` fragments is longer than all before, what it adds to their length is also in `x`. */
  predicate AddsFrom(setup: Setup, fragments: seq<string>, k: nat, x: string)
    requires 0 < k <= |fragments|
  {
    var (input, longest) := (InputAt(setup, fragments, k), Longest(setup, fragments, k - 1));
    |input| > longest ==> |input| <= |x| && input[longest..] == x[longest..|input|]
  }

  lemma PrefixStep(was: string, input: string, x: string)
    ensures |input| > |was| ==>
      (was + input[|was|..] <= x <==> was <= x && |input| <= |x| && input[|was|..] == x[|was|..|input|])
  {
    if |input| > |was| {
      var all := was + input[|was|..];
      if all <= x {
        assert was == all[..|was|] && x[..|was|] == was;
        assert x[|was|..|input|] == all[|was|..] == input[|was|..];
      }
      if was <= x && |input| <= |x| && input[|was|..] == x[|was|..|input|] {
        assert x[..|input|] == was + x[|was|..|input|];
      }
    }
  }

  /** What is streamed is a prefix of `x` exactly if every record-setting input adds a stretch of `x`. */
  lemma {:induction false} StreamedPrefix(setup: Setup, id: string, name: string, fragments: seq<string>, k: nat,
                                          x: string)
    requires setup.Valid() && name in setup.customTools && k <= |fragments|
    ensures |StreamedAt(setup, id, name, fragments, k)| == Longest(setup, fragments, k)
    ensures StreamedAt(setup, id, name, fragments, k) <= x <==>
      forall j :: 0 < j <= k ==> AddsFrom(setup, fragments, j, x)
    decreases k
  {
    hide InputAt, StreamedAt;
    if k == 0 {
      StreamStart(setup, id, name, fragments);
    } else {
      StreamedPrefix(setup, id, name, fragments, k - 1, x);
      StreamStep(setup, id, name, fragments, k - 1);
      var (was, input) := (StreamedAt(setup, id, name, fragments, k - 1), InputAt(setup, fragments, k));
      PrefixStep(was, input, x);
      assert was + "" == was;
      assert AddsFrom(setup, fragments, k, x) <==>
        (|input| > |was| ==> |input| <= |x| && input[|was|..] == x[|was|..|input|]);
      assert (forall j :: 0 < j <= k ==> AddsFrom(setup, fragments, j, x)) <==>
        (forall j :: 0 < j <= k - 1 ==> AddsFrom(setup, fragments, j, x)) && AddsFrom(setup, fragments, k, x);
    }
  }

  /** Main result, exact, at the end: the deltas concatenate to the final input if and only if every input that was
      longer than all before it added, beyond their length, what the final input has there; so none was longer than
      that. */
  lemma FinalIff(setup: Setup, id: string, name: string, fragments: seq<string>)
    requires setup.Valid() && name in setup.customTools
    ensures var n := |fragments|;
      StreamedAt(setup, id, name, fragments, n) == InputAt(setup, fragments, n) <==>
      forall k :: 0 < k <= n ==> AddsFrom(setup, fragments, k, InputAt(setup, fragments, n))
  {
    hide InputAt, StreamedAt, AddsFrom;
    var n := |fragments|;
    StreamedPrefix(setup, id, name, fragments, n, InputAt(setup, fragments, n));
  }

  /** A JSON argument in two fragments: the raw text of the first, streamed as if it were free-form, spoils the stream,
      unless the input itself happens to begin with it. */
  lemma JsonInTwoFragments(setup: Setup, id: string, name: string, first: string, second: string)
    requires setup.Valid() && name in setup.customTools && setup.extract(first) == first
    ensures StreamedAt(setup, id, name, [first, second], 2) == setup.extract(first + second) <==>
            first <= setup.extract(first + second)
  {
    var fragments := [first, second];
    assert fragments[..2] == fragments && fragments[..1] == [first];
    ConcatSnoc([], first);
    ConcatSnoc([first], second);
    assert [] + [first] == [first] && [first] + [second] == fragments && "" + first == first;
    StreamStart(setup, id, name, fragments);
    StreamStep(setup, id, name, fragments, 0);
    StreamStep(setup, id, name, fragments, 1);
  }

  /** In the emitted trace: the deltas of each custom call of a run are those of its fragments, and its final item is
      the input extracted from all of them. */
  lemma CustomCallsOfRun(setup: Setup, t: seq<ResponseEvent>, p: nat, g: seq<Action>, k: nat)
    requires setup.Valid() && Explained(setup, t, p, g) && k < |CallsOf(g)| && CallsOf(g)[k].name in setup.customTools
    ensures var (call, offset) := (CallsOf(g)[k], if TextOf(g) == "" then 0 else 1);
      var n := |call.fragments|;
      k < |ToolsIn(t[..p])| && offset + k < |t[p].output| &&
      ToolsIn(t[..p])[k].text == StreamedAt(setup, call.id, call.name, call.fragments, n) &&
      t[p].output[offset + k] == CustomCall(call.id, call.name, InputAt(setup, call.fragments, n))
  {
    hide Fold, CallsOf, TextOf, ToolsIn, SaidIn, FinalItems, FinalItem;
    var call := CallsOf(g)[k];
    assert call.fragments[..|call.fragments|] == call.fragments;
    FoldFacts(setup, call.id, call.name, call.fragments);
    FinalItemsAt(setup, StatesOf(setup, CallsOf(g)), k);
    CustomItem(setup, StateOf(setup, call));
  }

  lemma CustomItem(setup: Setup, call: Call)
    ensures call.custom ==> FinalItem(setup, call) == CustomCall(call.id, call.name, setup.extract(call.arguments))
  {
  }

  lemma {:induction false} FinalItemsAt(setup: Setup, calls: seq<Call>, k: nat)
    requires k < |calls|
    ensures k < |FinalItems(setup, calls)| && |FinalItems(setup, calls)| == |calls|
    ensures FinalItems(setup, calls)[k] == FinalItem(setup, calls[k])
    decreases |calls|
  {
    hide FinalItem;
    if |calls| > 1 { FinalItemsAt(setup, calls[..|calls| - 1], if k < |calls| - 1 then k else 0); }
  }

  // ---- Indices of added tool calls ----

  predicate ToolAdded(e: ResponseEvent) {
    e.ItemAdded? && !e.item.Message?
  }

  /** For every tool call added: its index, and whether text had been streamed before. */
  function AddedIn(t: seq<ResponseEvent>): seq<(nat, bool)> {
    if t == [] then []
    else
      var (before, e) := (t[..|t| - 1], t[|t| - 1]);
      AddedIn(before) + if ToolAdded(e) then [(e.index, SaidIn(before) != "")] else []
  }

  /** Indices count up from 0, one higher as soon as text has come before. */
  predicate Counted(added: seq<(nat, bool)>, said: bool) {
    (forall k :: 0 <= k < |added| ==> added[k].0 == k + if added[k].1 then 1 else 0) &&
    (forall i, k :: 0 <= i < k < |added| ==> added[i].1 ==> added[k].1) &&
    (forall k :: 0 <= k < |added| ==> added[k].1 ==> said)
  }

  lemma AddedSnoc(t: seq<ResponseEvent>, e: ResponseEvent)
    ensures AddedIn(t + [e]) == AddedIn(t) + if ToolAdded(e) then [(e.index, SaidIn(t) != "")] else []
  {
    assert (t + [e])[..|t|] == t;
  }

  lemma AddedQuiet(t: seq<ResponseEvent>, e: ResponseEvent)
    requires !ToolAdded(e)
    ensures AddedIn(t + [e]) == AddedIn(t)
  {
    AddedSnoc(t, e);
    assert AddedIn(t) + [] == AddedIn(t);
  }

  ghost predicate AddedInv(setup: Setup, c: Core, h: seq<Action>) {
    Live(setup, c, h) && |AddedIn(c.trace)| == |c.calls| && Counted(AddedIn(c.trace), SaidIn(c.trace) != "")
  }

  lemma CountedMore(added: seq<(nat, bool)>, said: bool)
    requires Counted(added, said)
    ensures Counted(added, true)
    ensures Counted(added + [(|added| + if said then 1 else 0, said)], said)
  {
  }

  lemma SpeechAdds(c: Core, text: string)
    ensures AddedIn(HandleTextCore(c, text).trace) == AddedIn(c.trace)
    ensures AddedIn(HandleReasoningCore(c, text).trace) == AddedIn(c.trace)
  {
    hide AddedIn;
    var c1 := CloseReasoning(c);
    AddedQuiet(c.trace, ReasoningDone(c.outputIndex, c.contentIndex));
    MessageAdds(c1.(hasText := true));
    MessageAdds(c.(inReasoning := true));
    var c2 := if c1.hasText then c1 else AddMessage(c1.(hasText := true));
    AddedQuiet(c2.trace, TextDelta(c2.outputIndex, c2.contentIndex, text));
    var c3 := if c.inReasoning then c else AddMessage(c.(inReasoning := true));
    AddedQuiet(c3.trace, ReasoningDelta(c3.outputIndex, c3.contentIndex, text));
  }

  lemma MessageAdds(c: Core)
    ensures AddedIn(AddMessage(c).trace) == AddedIn(c.trace)
  {
    hide AddedIn;
    var e := ItemAdded(c.outputIndex, Message(""));
    AddedQuiet(c.trace, e);
    AddedQuiet(c.trace + [e], PartAdded(c.outputIndex, c.contentIndex));
  }

  lemma ArgumentsAdd(setup: Setup, c: Core, text: string)
    ensures AddedIn(ToolArguments(setup, c, text).trace) == AddedIn(c.trace)
    ensures |ToolArguments(setup, c, text).calls| == |c.calls|
  {
    hide AddedIn, AddFragment;
    if c.calls != [] {
      var last := |c.calls| - 1;
      var (call, delta) := AddFragment(setup, c.calls[last], text);
      if delta.Some? {
        AddedQuiet(c.trace, InputDelta(last + c.Offset(), call.ItemId(setup.responseId), delta.value));
        AddedQuiet(c.trace, ArgumentsDelta(last + c.Offset(), call.ItemId(setup.responseId), delta.value));
      }
    }
  }

  lemma StartToolAdds(setup: Setup, c: Core, id: string, name: string)
    ensures var d := StartTool(setup, c, id, name);
      AddedIn(d.trace) == AddedIn(c.trace) + [(|c.calls| + c.Offset(), SaidIn(c.trace) != "")] &&
      |d.calls| == |c.calls| + 1
  {
    hide AddedIn;
    var call := NewCall(setup, id, name);
    var item := if call.custom then CustomCall(id, name, "") else FunctionCall(id, name, "");
    AddedSnoc(c.trace, ItemAdded(|c.calls| + c.Offset(), item));
  }

  lemma ActAdds(setup: Setup, c: Core, h: seq<Action>, a: Action)
    requires AddedInv(setup, c, h) && Proper(a) && !a.Finish?
    ensures AddedInv(setup, Act(setup, c, a), h + [a])
  {
    hide Counted, AddedIn, SaidIn, ToolsIn, DoneIn, CompletedIn, StatesOf, AllSeen, CallsOf, TextOf, HandleTextCore,
      HandleReasoningCore, StartTool, ToolArguments;
    ActLive(setup, c, h, a);
    match a {
      case Start(model) =>
        AddedQuiet(c.trace, Created(model));
        ReadQuiet(c.trace, Created(model));
      case Say(text) =>
        SpeechAdds(c, text);
        SayReads(c, text);
        CountedMore(AddedIn(c.trace), SaidIn(c.trace) != "");
      case Think(text) =>
        SpeechAdds(c, text);
        ThinkReads(c, text);
      case ToolBegin =>
      case ToolStart(id, name) =>
        StartToolAdds(setup, c, id, name);
        CountedMore(AddedIn(c.trace), SaidIn(c.trace) != "");
        SameSaid(setup, c, h, a);
      case ToolArgs(text) =>
        ArgumentsAdd(setup, c, text);
        SameSaid(setup, c, h, a);
    }
  }

  lemma SameSaid(setup: Setup, c: Core, h: seq<Action>, a: Action)
    requires Live(setup, c, h) && Live(setup, Act(setup, c, a), h + [a]) && !a.Say?
    ensures SaidIn(Act(setup, c, a).trace) == SaidIn(c.trace)
  {
    hide SaidIn, ToolsIn, DoneIn, CompletedIn, StatesOf, AllSeen, CallsOf, Act;
    HistorySnoc(h, a);
    assert TextOf(h) + "" == TextOf(h);
  }

  lemma {:induction false} RunAdds(setup: Setup, h: seq<Action>)
    requires setup.Valid() && ResponsesSnapshot.AllProper(h) && forall i :: 0 <= i < |h| ==> !h[i].Finish?
    ensures AddedInv(setup, ActAll(setup, EMPTY, h), h)
    decreases |h|
  {
    hide Act, Proper, AddedInv;
    if h == [] {
      NothingAdded(setup);
    } else {
      var n := |h| - 1;
      RunAdds(setup, h[..n]);
      ActAdds(setup, ActAll(setup, EMPTY, h[..n]), h[..n], h[n]);
      assert h == h[..n] + [h[n]];
    }
  }

  lemma NothingAdded(setup: Setup)
    ensures AddedInv(setup, EMPTY, [])
  {
  }

  /** Every tool call was added under the index that it has in an output of `offset` other items and then the calls. */
  predicate InPlace(added: seq<(nat, bool)>, offset: nat) {
    forall k :: 0 <= k < |added| ==> added[k].0 == offset + k
  }

  lemma IndicesFollow(setup: Setup, c: Core, h: seq<Action>)
    requires AddedInv(setup, c, h)
    ensures var (added, offset) := (AddedIn(c.trace), c.Offset());
      InPlace(added, offset) <==> added == [] || SaidIn(c.trace) == "" || added[0].1
  {
    hide AddedIn, SaidIn, ToolsIn, DoneIn, CompletedIn, StatesOf, AllSeen, CallsOf, TextOf;
    var (added, offset) := (AddedIn(c.trace), c.Offset());
    if added != [] && SaidIn(c.trace) != "" && !added[0].1 {
      assert added[0].0 != offset + 0;
    }
  }

  // ---- In whole runs ----

  predicate Toolless(u: seq<ResponseEvent>) {
    forall i :: 0 <= i < |u| ==> !ToolAdded(u[i])
  }

  lemma {:induction false} AddedBefore(t: seq<ResponseEvent>, u: seq<ResponseEvent>)
    requires Toolless(u)
    ensures AddedIn(t + u) == AddedIn(t)
    decreases |u|
  {
    hide AddedIn, ToolAdded;
    if u == [] {
      assert t + u == t;
    } else {
      var n := |u| - 1;
      AddedBefore(t, u[..n]);
      AddedQuiet(t + u[..n], u[n]);
      assert t + u == t + u[..n] + [u[n]];
    }
  }

  lemma {:induction false} CloseCallsAddNone(setup: Setup, calls: seq<Call>, offset: nat)
    ensures Toolless(CloseCalls(setup, calls, offset))
    decreases |calls|
  {
    if calls != [] { CloseCallsAddNone(setup, calls[..|calls| - 1], offset); }
  }

  /** The finish adds no tool call: its events behind the trace, the completed event last. */
  lemma FinishAdds(setup: Setup, c: Core, usage: Option<Usage>)
    ensures var t := FinishCore(setup, c, usage).trace; |t| > 0 && AddedIn(t[..|t| - 1]) == AddedIn(c.trace)
  {
    hide AddedIn, CloseCalls;
    var closing := CloseCalls(setup, c.calls, c.Offset());
    var i := c.outputIndex;
    var text := if !c.hasText then []
                else [TextDone(i, c.contentIndex, c.textAccum), PartDone(i, c.contentIndex, c.textAccum),
                      ItemDone(i, Message(c.textAccum))];
    var reasoning := if c.inReasoning then [ReasoningDone(CloseText(c).outputIndex, c.contentIndex)] else [];
    assert StopReasoning(CloseText(c)).trace == c.trace + (text + reasoning);
    AddedBefore(c.trace, text + reasoning);
    CloseCallsAddNone(setup, c.calls, c.Offset());
    AddedBefore(c.trace + (text + reasoning), closing);
    var t := FinishCore(setup, c, usage).trace;
    assert t[..|t| - 1] == c.trace + (text + reasoning) + closing;
  }

  /** Before `p`, where the message is completed: the tool calls are in place if and only if there is none, or no
      text, or text came before the first. */
  predicate PlacedIff(t: seq<ResponseEvent>, p: nat) {
    p <= |t| &&
    var (added, said) := (AddedIn(t[..p]), SaidIn(t[..p]));
    |added| == |ToolsIn(t[..p])| &&
    (InPlace(added, if said == "" then 0 else 1) <==> added == [] || said == "" || added[0].1)
  }

  lemma PlacedSoFar(setup: Setup, c: Core, g: seq<Action>)
    requires AddedInv(setup, c, g)
    ensures var (added, said) := (AddedIn(c.trace), SaidIn(c.trace));
      |added| == |ToolsIn(c.trace)| &&
      (InPlace(added, if said == "" then 0 else 1) <==> added == [] || said == "" || added[0].1)
  {
    hide AddedIn, SaidIn, ToolsIn, DoneIn, CompletedIn, TextOf, CallsOf, Counted;
    IndicesFollow(setup, c, g);
    assert c.Offset() == if SaidIn(c.trace) == "" then 0 else 1;
  }

  lemma PlacedAt(setup: Setup, t: seq<ResponseEvent>, p: nat, g: seq<Action>)
    requires setup.Valid() && Explained(setup, t, p, g) && FinishOf(setup, t, p, g) && ResponsesSnapshot.AllProper(g)
    ensures PlacedIff(t, p)
  {
    hide Act, ActAll, Proper, AddedIn, SaidIn, ToolsIn, DoneIn, CompletedIn, TextOf, CallsOf, FinishCore, FinalItems,
      InPlace, Counted;
    var c := ActAll(setup, EMPTY, g);
    RunAdds(setup, g);
    PlacedSoFar(setup, c, g);
    FinishAdds(setup, c, t[p].usage);
    assert t[..p] == t[..p + 1][..p];
  }

  /** Main result, exact, for every run: every tool call of the final output, which has the text first and then the
      calls, stands there under the index that it was added with if and only if there is no tool call, or no text, or
      text started before the first tool call. */
  lemma AddedIndicesOfRun(setup: Setup, chunks: seq<StreamChunk>)
    requires setup.Valid()
    ensures var t := Whole(setup, chunks).core.trace; exists p :: Snapshot(t, p) && PlacedIff(t, p)
  {
    hide Snapshot, Explained, FinishOf, RunActions, Proper, PlacedIff, Whole;
    var (t, h) := (Whole(setup, chunks).core.trace, RunActions(setup, INITIAL, chunks));
    SnapshotTheorem(setup, chunks);
    RunProper(setup, INITIAL, chunks);
    var p, g :| CutAt(h, g) && Snapshot(t, p) && Explained(setup, t, p, g) && FinishOf(setup, t, p, g);
    assert forall i :: 0 <= i < |g| ==> g[i] == h[i];
    PlacedAt(setup, t, p, g);
  }
}
