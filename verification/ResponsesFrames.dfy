/** The events around the texts of a Responses stream (translator/responses_stream.go): which parts are opened and
    closed, under which indices, and what the finish sends before response.completed. */
module ResponsesFrames {
  import opened Strings
  import opened Chunks
  import opened Options
  import opened Normalizer
  import opened ResponsesStream
  import opened ResponsesSnapshot

  // ---- Reading a trace ----

  /** The events of the message: everything but the start, the tool calls and the completion. */
  predicate Framing(e: ResponseEvent) {
    e.PartAdded? || e.TextDelta? || e.TextDone? || e.PartDone? || e.ReasoningDelta? || e.ReasoningDone? ||
    (e.ItemAdded? && e.item.Message?)
  }

  function FramesIn(t: seq<ResponseEvent>): seq<ResponseEvent> {
    if t == [] then [] else FramesIn(t[..|t| - 1]) + if Framing(t[|t| - 1]) then [t[|t| - 1]] else []
  }

  function Dones(t: seq<ResponseEvent>): nat {
    if t == [] then 0 else Dones(t[..|t| - 1]) + if t[|t| - 1].ReasoningDone? then 1 else 0
  }

  function PartsAdded(t: seq<ResponseEvent>): nat {
    if t == [] then 0 else PartsAdded(t[..|t| - 1]) + if t[|t| - 1].PartAdded? then 1 else 0
  }

  lemma FramesSnoc(t: seq<ResponseEvent>, e: ResponseEvent)
    ensures FramesIn(t + [e]) == if Framing(e) then FramesIn(t) + [e] else FramesIn(t)
    ensures Dones(t + [e]) == Dones(t) + if e.ReasoningDone? then 1 else 0
    ensures PartsAdded(t + [e]) == PartsAdded(t) + if e.PartAdded? then 1 else 0
  {
    assert (t + [e])[..|t|] == t && FramesIn(t) + [] == FramesIn(t);
  }

  // ---- Reading what upstream sent ----

  /** Reasoning was the last that came: neither text nor a tool call has followed it. */
  predicate Thinking(h: seq<Action>) {
    h != [] &&
    (h[|h| - 1].Think? || (!h[|h| - 1].Say? && !h[|h| - 1].ToolBegin? && Thinking(h[..|h| - 1])))
  }

  /** How often text has followed reasoning. */
  function Turns(h: seq<Action>): nat {
    if h == [] then 0
    else Turns(h[..|h| - 1]) + if h[|h| - 1].Say? && Thinking(h[..|h| - 1]) then 1 else 0
  }

  /** How often reasoning has begun. */
  function Begins(h: seq<Action>): nat {
    if h == [] then 0
    else Begins(h[..|h| - 1]) + if h[|h| - 1].Think? && !Thinking(h[..|h| - 1]) then 1 else 0
  }

  /** How often a tool call has followed reasoning. */
  function Interrupted(h: seq<Action>): nat {
    if h == [] then 0
    else Interrupted(h[..|h| - 1]) + if h[|h| - 1].ToolBegin? && Thinking(h[..|h| - 1]) then 1 else 0
  }

  /** The message events of `a` after `h`: text ends the reasoning before it; the first text, and all reasoning that
      begins, is announced as a message with one part. */
  function FramesOf(h: seq<Action>, a: Action): seq<ResponseEvent> {
    match a
    case Say(text) =>
      var k := Turns(h + [a]);
      (if Thinking(h) then [ReasoningDone(0, Turns(h))] else [])
      + (if TextOf(h) == "" then [ItemAdded(0, Message("")), PartAdded(0, k)] else [])
      + [TextDelta(0, k, text)]
    case Think(text) =>
      (if Thinking(h) then [] else [ItemAdded(0, Message("")), PartAdded(0, Turns(h))])
      + [ReasoningDelta(0, Turns(h), text)]
    case _ => []
  }

  function Framed(h: seq<Action>): seq<ResponseEvent> {
    if h == [] then [] else Framed(h[..|h| - 1]) + FramesOf(h[..|h| - 1], h[|h| - 1])
  }

  lemma HistoryReads(h: seq<Action>, a: Action)
    ensures Thinking(h + [a]) <==> a.Think? || (!a.Say? && !a.ToolBegin? && Thinking(h))
    ensures Turns(h + [a]) == Turns(h) + if a.Say? && Thinking(h) then 1 else 0
    ensures Begins(h + [a]) == Begins(h) + if a.Think? && !Thinking(h) then 1 else 0
    ensures Interrupted(h + [a]) == Interrupted(h) + if a.ToolBegin? && Thinking(h) then 1 else 0
    ensures Framed(h + [a]) == Framed(h) + FramesOf(h, a)
    ensures FramesOf(h, a) == [] ==> Framed(h + [a]) == Framed(h)
  {
    hide FramesOf;
    assert (h + [a])[..|h|] == h && Framed(h) + [] == Framed(h);
  }

  // ---- The invariant until the finish ----

  predicate Shaped(c: Core, h: seq<Action>) {
    c.outputIndex == 0 && (c.inReasoning <==> Thinking(h)) && c.contentIndex == Turns(h) &&
    c.textAccum == TextOf(h) && (c.hasText <==> TextOf(h) != "") && FramesIn(c.trace) == Framed(h)
  }

  lemma AddMessageFrames(c: Core)
    ensures FramesIn(AddMessage(c).trace) ==
      FramesIn(c.trace) + [ItemAdded(c.outputIndex, Message("")), PartAdded(c.outputIndex, c.contentIndex)]
  {
    hide FramesIn;
    var e := ItemAdded(c.outputIndex, Message(""));
    FramesSnoc(c.trace, e);
    FramesSnoc(c.trace + [e], PartAdded(c.outputIndex, c.contentIndex));
  }

  lemma SayFrames(c: Core, text: string)
    ensures var d := HandleTextCore(c, text);
      var k := c.contentIndex + if c.inReasoning then 1 else 0;
      d.contentIndex == k && d.outputIndex == c.outputIndex && !d.inReasoning && d.hasText &&
      d.textAccum == c.textAccum + text &&
      FramesIn(d.trace) == FramesIn(c.trace)
        + (if c.inReasoning then [ReasoningDone(c.outputIndex, c.contentIndex)] else [])
        + (if c.hasText then [] else [ItemAdded(c.outputIndex, Message("")), PartAdded(c.outputIndex, k)])
        + [TextDelta(c.outputIndex, k, text)]
  {
    hide FramesIn, CloseReasoning, AddMessage;
    EndFrames(c);
    var c1 := CloseReasoning(c);
    FirstFrames(c1);
    var c2 := if c1.hasText then c1 else AddMessage(c1.(hasText := true));
    FramesSnoc(c2.trace, TextDelta(c2.outputIndex, c2.contentIndex, text));
  }

  lemma EndFrames(c: Core)
    ensures var d := CloseReasoning(c);
      d.contentIndex == c.contentIndex + (if c.inReasoning then 1 else 0) && d.outputIndex == c.outputIndex &&
      !d.inReasoning && d.hasText == c.hasText && d.textAccum == c.textAccum &&
      FramesIn(d.trace) ==
        FramesIn(c.trace) + if c.inReasoning then [ReasoningDone(c.outputIndex, c.contentIndex)] else []
  {
    hide FramesIn;
    FramesSnoc(c.trace, ReasoningDone(c.outputIndex, c.contentIndex));
  }

  lemma FirstFrames(c: Core)
    ensures var d := if c.hasText then c else AddMessage(c.(hasText := true));
      d.contentIndex == c.contentIndex && d.outputIndex == c.outputIndex && d.inReasoning == c.inReasoning &&
      d.hasText && d.textAccum == c.textAccum &&
      FramesIn(d.trace) == FramesIn(c.trace) +
        if c.hasText then [] else [ItemAdded(c.outputIndex, Message("")), PartAdded(c.outputIndex, c.contentIndex)]
  {
    hide FramesIn;
    AddMessageFrames(c.(hasText := true));
  }

  lemma ThinkFrames(c: Core, text: string)
    ensures var d := HandleReasoningCore(c, text);
      d.contentIndex == c.contentIndex && d.outputIndex == c.outputIndex && d.inReasoning && d.hasText == c.hasText &&
      d.textAccum == c.textAccum &&
      FramesIn(d.trace) == FramesIn(c.trace)
        + (if c.inReasoning then []
           else [ItemAdded(c.outputIndex, Message("")), PartAdded(c.outputIndex, c.contentIndex)])
        + [ReasoningDelta(c.outputIndex, c.contentIndex, text)]
  {
    hide FramesIn;
    AddMessageFrames(c.(inReasoning := true));
    var c1 := if c.inReasoning then c else AddMessage(c.(inReasoning := true));
    FramesSnoc(c1.trace, ReasoningDelta(c1.outputIndex, c1.contentIndex, text));
  }

  /** Starting a tool call and sending arguments says nothing about the message. */
  lemma ToolFrames(setup: Setup, c: Core, a: Action)
    requires a.ToolStart? || a.ToolArgs? || a.Start?
    ensures var d := Act(setup, c, a);
      d.contentIndex == c.contentIndex && d.outputIndex == c.outputIndex && d.inReasoning == c.inReasoning &&
      d.hasText == c.hasText && d.textAccum == c.textAccum && FramesIn(d.trace) == FramesIn(c.trace)
  {
    hide FramesIn, ToolArguments;
    match a
    case Start(model) => FramesSnoc(c.trace, Created(model));
    case ToolStart(id, name) => OneSilent(c.trace, StartTool(setup, c, id, name).trace);
    case ToolArgs(text) => ArgumentFrames(setup, c, text);
    case _ =>
  }

  lemma ArgumentFrames(setup: Setup, c: Core, text: string)
    ensures var d := ToolArguments(setup, c, text);
      d.contentIndex == c.contentIndex && d.outputIndex == c.outputIndex && d.inReasoning == c.inReasoning &&
      d.hasText == c.hasText && d.textAccum == c.textAccum && FramesIn(d.trace) == FramesIn(c.trace)
  {
    hide FramesIn, AddFragment;
    OneSilent(c.trace, ToolArguments(setup, c, text).trace);
  }

  lemma OneSilent(t: seq<ResponseEvent>, u: seq<ResponseEvent>)
    ensures t <= u && |u| == |t| + 1 && !Framing(u[|t|]) ==> FramesIn(u) == FramesIn(t)
  {
    hide FramesIn;
    if t <= u && |u| == |t| + 1 {
      FramesSnoc(t, u[|t|]);
      assert u == t + [u[|t|]];
    }
  }

  lemma ActShaped(setup: Setup, c: Core, h: seq<Action>, a: Action)
    requires Shaped(c, h) && Proper(a) && !a.Finish?
    ensures Shaped(Act(setup, c, a), h + [a])
  {
    hide FramesIn, Framed, TextOf, Thinking, Turns, HandleTextCore, HandleReasoningCore, StartTool, ToolArguments;
    HistoryReads(h, a);
    HistorySnoc(h, a);
    assert TextOf(h) + "" == TextOf(h);
    match a {
      case Say(text) =>
        SayFrames(c, text);
        SayOrder(Framed(h), if Thinking(h) then [ReasoningDone(0, Turns(h))] else [],
          if TextOf(h) == "" then [ItemAdded(0, Message("")), PartAdded(0, Turns(h + [a]))] else [],
          [TextDelta(0, Turns(h + [a]), text)]);
      case Think(text) =>
        ThinkFrames(c, text);
        SayOrder(Framed(h), [],
          if Thinking(h) then [] else [ItemAdded(0, Message("")), PartAdded(0, Turns(h))],
          [ReasoningDelta(0, Turns(h), text)]);
      case ToolBegin =>
      case _ => ToolFrames(setup, c, a);
    }
  }

  lemma SayOrder(a: seq<ResponseEvent>, x: seq<ResponseEvent>, y: seq<ResponseEvent>, z: seq<ResponseEvent>)
    ensures a + (x + y + z) == a + x + y + z && a + (y + z) == a + y + z
  {
  }

  lemma {:induction false} AllShaped(setup: Setup, h: seq<Action>)
    requires AllProper(h) && Unfinished(h)
    ensures Shaped(ActAll(setup, EMPTY, h), h)
    decreases |h|
  {
    hide Shaped, Act, Proper;
    if h == [] {
      NothingShaped();
    } else {
      var n := |h| - 1;
      AllShaped(setup, h[..n]);
      ActShaped(setup, ActAll(setup, EMPTY, h[..n]), h[..n], h[n]);
      assert h == h[..n] + [h[n]];
    }
  }

  lemma NothingShaped()
    ensures Shaped(EMPTY, [])
  {
  }

  // ---- The finish ----

  /** The done events of one call, from its fragments alone. */
  function CallDone(setup: Setup, call: CallInput, index: nat): seq<ResponseEvent> {
    var (id, arguments) := (if call.id == "" then setup.responseId else call.id, Concat(call.fragments));
    if call.name in setup.customTools then
      var input := setup.extract(arguments);
      [InputDone(index, "ctc_" + id, input), ItemDone(index, CustomCall(call.id, call.name, input))]
    else
      [ArgumentsDone(index, "fc_" + id, arguments), ItemDone(index, FunctionCall(call.id, call.name, arguments))]
  }

  function CallsDone(setup: Setup, calls: seq<CallInput>, offset: nat): seq<ResponseEvent> {
    if calls == [] then []
    else
      CallsDone(setup, calls[..|calls| - 1], offset) + CallDone(setup, calls[|calls| - 1], |calls| - 1 + offset)
  }

  /** What the finish of a response with this history sends before response.completed: the text is done, then the
      reasoning if it is still open, then the calls in order. A message in front of the calls moves their indices on by
      one, and also that of the end of the reasoning. */
  function Closing(setup: Setup, h: seq<Action>): seq<ResponseEvent> {
    var (text, k) := (TextOf(h), Turns(h));
    var offset := if text == "" then 0 else 1;
    (if text == "" then [] else [TextDone(0, k, text), PartDone(0, k, text), ItemDone(0, Message(text))])
    + (if Thinking(h) then [ReasoningDone(offset, k)] else [])
    + CallsDone(setup, CallsOf(h), offset)
  }

  lemma CloseCallIs(setup: Setup, call: CallInput, index: nat)
    requires setup.Valid()
    ensures CloseCall(setup, StateOf(setup, call), index) == CallDone(setup, call, index)
  {
    hide Fold;
    FoldFacts(setup, call.id, call.name, call.fragments);
  }

  lemma {:induction false} CloseCallsAre(setup: Setup, calls: seq<CallInput>, offset: nat)
    requires setup.Valid()
    ensures CloseCalls(setup, StatesOf(setup, calls), offset) == CallsDone(setup, calls, offset)
    decreases |calls|
  {
    hide StateOf, CloseCall, CallDone;
    if calls != [] {
      var n := |calls| - 1;
      CloseCallsAre(setup, calls[..n], offset);
      CloseCallIs(setup, calls[n], n + offset);
      assert StatesOf(setup, calls)[..n] == StatesOf(setup, calls[..n]);
    }
  }

  lemma FinishCloses(setup: Setup, c: Core, h: seq<Action>, usage: Option<Usage>)
    requires setup.Valid() && Shaped(c, h) && c.calls == StatesOf(setup, CallsOf(h))
    ensures FinishCore(setup, c, usage).trace ==
      c.trace + Closing(setup, h) + [Completed(c.model, BuildOutput(setup, c), usage)]
  {
    hide StatesOf, CallsOf, TextOf, Turns, Thinking, CloseCalls, CallsDone, BuildOutput, FramesIn;
    CloseCallsAre(setup, CallsOf(h), c.Offset());
    TextCloses(c, h);
  }

  lemma TextCloses(c: Core, h: seq<Action>)
    requires Shaped(c, h)
    ensures var (text, k) := (TextOf(h), Turns(h));
      StopReasoning(CloseText(c)).trace == c.trace
        + (if text == "" then [] else [TextDone(0, k, text), PartDone(0, k, text), ItemDone(0, Message(text))])
        + (if Thinking(h) then [ReasoningDone(if text == "" then 0 else 1, k)] else [])
  {
    hide TextOf, Turns, Thinking, FramesIn;
  }

  // ---- Whole runs ----

  /** The response is completed at `p`, right behind the closing events of `g`, and the message events before those are
      the ones that `g` calls for. */
  predicate Closes(setup: Setup, t: seq<ResponseEvent>, p: nat, g: seq<Action>) {
    var n := p - |Closing(setup, g)|;
    n >= 0 && p < |t| && t[p].Completed? && t[n..p] == Closing(setup, g) && FramesIn(t[..n]) == Framed(g)
  }

  lemma FinishOfCloses(setup: Setup, t: seq<ResponseEvent>, p: nat, g: seq<Action>)
    requires setup.Valid() && AllProper(g) && FinishOf(setup, t, p, g)
    ensures Closes(setup, t, p, g)
  {
    hide Closing, Framed, FramesIn, Proper, ActAll, FinishCore, BuildOutput, StatesOf, CallsOf, Shaped;
    AllShaped(setup, g);
    LiveAt(setup, g);
    var c := ActAll(setup, EMPTY, g);
    FinishCloses(setup, c, g, t[p].usage);
    FramesSoFar(c, g);
    var (u, n) := (FinishCore(setup, c, t[p].usage).trace, p - |Closing(setup, g)|);
    assert t[..p + 1] == u && |u| == p + 1;
    assert t[..n] == u[..n] == c.trace && t[n..p] == u[n..p] == Closing(setup, g);
  }

  lemma FramesSoFar(c: Core, h: seq<Action>)
    requires Shaped(c, h)
    ensures FramesIn(c.trace) == Framed(h)
  {
  }

  lemma LiveAt(setup: Setup, g: seq<Action>)
    requires setup.Valid() && AllProper(g) && Unfinished(g)
    ensures ActAll(setup, EMPTY, g).calls == StatesOf(setup, CallsOf(g))
  {
    hide ActAll, StatesOf, CallsOf, Proper, Snapshot, Explained, FinishOf, Settles, CutAt, Unfinished;
    AllGood(setup, g);
    if ActAll(setup, EMPTY, g).finished {
      var p: nat, k: seq<Action> :| CutAt(g, k) && Settles(g, k, ActAll(setup, EMPTY, g).trace, p);
      NoCut(g, k);
    }
  }

  lemma NoCut(g: seq<Action>, k: seq<Action>)
    requires CutAt(g, k)
    ensures !Unfinished(g)
  {
  }

  /** Main result, for every run: the events of the message up to the completion, their order and their indices
      included, are fixed by the texts, the reasoning and the tool calls before the first finish. */
  lemma Frames(setup: Setup, chunks: seq<StreamChunk>)
    requires setup.Valid()
    ensures var (h, t) := (RunActions(setup, INITIAL, chunks), Whole(setup, chunks).core.trace);
      CompletedIn(t) == 1 && exists p: nat, g: seq<Action> :: CutAt(h, g) && Closes(setup, t, p, g)
  {
    hide RunActions, ActAll, Closes, CutAt, Chunked, Explained, FinishOf, OutputFits, SaidIn, ToolsIn, DoneIn,
      CompletedIn, Settles, Proper;
    var (h, t) := (RunActions(setup, INITIAL, chunks), Whole(setup, chunks).core.trace);
    SnapshotTheorem(setup, chunks);
    var p: nat, g: seq<Action> :| CutAt(h, g) && Settles(h, g, t, p) && Snapshot(t, p) && Explained(setup, t, p, g) &&
      FinishOf(setup, t, p, g);
    RunProper(setup, INITIAL, chunks);
    ProperPart(h, g);
    FinishOfCloses(setup, t, p, g);
    assert CutAt(h, g) && Closes(setup, t, p, g);
  }

  lemma ProperPart(h: seq<Action>, g: seq<Action>)
    requires AllProper(h) && CutAt(h, g)
    ensures AllProper(g)
  {
    hide Proper;
  }

  // ---- What that means for a client ----

  /** The event belongs to output item 0 and, unless it announces the item, to content part `k`. */
  predicate At(e: ResponseEvent, k: nat) {
    match e
    case ItemAdded(i, _) => i == 0
    case PartAdded(i, j) => i == 0 && j == k
    case TextDelta(i, j, _) => i == 0 && j == k
    case ReasoningDelta(i, j, _) => i == 0 && j == k
    case ReasoningDone(i, j) => i == 0 && j == k
    case _ => false
  }

  /** The content part is the number of ends of reasoning before. */
  predicate Numbered(t: seq<ResponseEvent>) {
    forall i :: 0 <= i < |t| ==> At(t[i], Dones(t[..i]))
  }

  lemma NumberedSnoc(t: seq<ResponseEvent>, e: ResponseEvent)
    requires Numbered(t) && At(e, Dones(t))
    ensures Numbered(t + [e])
  {
    hide At, Dones;
    assert (t + [e])[..|t|] == t && forall i :: 0 <= i < |t| ==> (t + [e])[..i] == t[..i];
  }

  /** The message, or the reasoning, is announced with one part. */
  lemma AnnounceNumbered(t: seq<ResponseEvent>)
    requires Numbered(t)
    ensures var (e, k) := (ItemAdded(0, Message("")), Dones(t));
      var u := t + [e, PartAdded(0, k)];
      Numbered(u) && Dones(u) == k && PartsAdded(u) == PartsAdded(t) + 1
  {
    hide Numbered, Dones, PartsAdded;
    var (e, k) := (ItemAdded(0, Message("")), Dones(t));
    NumberedSnoc(t, e);
    FramesSnoc(t, e);
    NumberedSnoc(t + [e], PartAdded(0, k));
    FramesSnoc(t + [e], PartAdded(0, k));
    assert t + [e] + [PartAdded(0, k)] == t + [e, PartAdded(0, k)];
  }

  lemma SayNumbered(t: seq<ResponseEvent>, ends: bool, first: bool, text: string)
    requires Numbered(t)
    ensures var k := Dones(t) + if ends then 1 else 0;
      var u := t + (if ends then [ReasoningDone(0, Dones(t))] else [])
                 + (if first then [ItemAdded(0, Message("")), PartAdded(0, k)] else []) + [TextDelta(0, k, text)];
      Numbered(u) && Dones(u) == k && PartsAdded(u) == PartsAdded(t) + if first then 1 else 0
  {
    hide Numbered, Dones, PartsAdded;
    var k := Dones(t) + if ends then 1 else 0;
    var end := ReasoningDone(0, Dones(t));
    NumberedSnoc(t, end);
    FramesSnoc(t, end);
    var t1 := if ends then t + [end] else t;
    assert t + [] == t;
    AnnounceNumbered(t1);
    var t2 := if first then t1 + [ItemAdded(0, Message("")), PartAdded(0, k)] else t1;
    assert t1 + [] == t1;
    NumberedSnoc(t2, TextDelta(0, k, text));
    FramesSnoc(t2, TextDelta(0, k, text));
  }

  lemma ThinkNumbered(t: seq<ResponseEvent>, begins: bool, text: string)
    requires Numbered(t)
    ensures var k := Dones(t);
      var u := t + (if begins then [ItemAdded(0, Message("")), PartAdded(0, k)] else []) + [ReasoningDelta(0, k, text)];
      Numbered(u) && Dones(u) == k && PartsAdded(u) == PartsAdded(t) + if begins then 1 else 0
  {
    hide Numbered, Dones, PartsAdded;
    var k := Dones(t);
    AnnounceNumbered(t);
    var t1 := if begins then t + [ItemAdded(0, Message("")), PartAdded(0, k)] else t;
    assert t + [] == t;
    NumberedSnoc(t1, ReasoningDelta(0, k, text));
    FramesSnoc(t1, ReasoningDelta(0, k, text));
  }

  lemma {:induction false} FramedNumbered(h: seq<Action>)
    requires AllProper(h)
    ensures var t := Framed(h);
      Numbered(t) && Dones(t) == Turns(h) && PartsAdded(t) == Begins(h) + if TextOf(h) == "" then 0 else 1
    ensures Turns(h) + Interrupted(h) + (if Thinking(h) then 1 else 0) == Begins(h)
    decreases |h|
  {
    if h != [] {
      hide Numbered, Dones, PartsAdded, Thinking, Turns, Begins, Interrupted, Framed, FramesOf, TextOf, Proper;
      var (g, a) := (h[..|h| - 1], h[|h| - 1]);
      assert h == g + [a] && Proper(a);
      FramedNumbered(g);
      HistoryReads(g, a);
      MoreNumbered(Framed(g), g, a);
    }
  }

  lemma MoreNumbered(t: seq<ResponseEvent>, g: seq<Action>, a: Action)
    requires Proper(a) && Numbered(t) && Dones(t) == Turns(g)
    ensures var u := t + FramesOf(g, a);
      Numbered(u) && Dones(u) == Turns(g + [a]) &&
      PartsAdded(u) - PartsAdded(t) ==
        (if a.Think? && !Thinking(g) then 1 else 0) + (if TextOf(g) == "" && TextOf(g + [a]) != "" then 1 else 0)
    ensures TextOf(g) != "" ==> TextOf(g + [a]) != ""
  {
    hide Numbered, Dones, PartsAdded, Thinking, Turns, TextOf;
    HistoryReads(g, a);
    HistorySnoc(g, a);
    assert TextOf(g) + "" == TextOf(g) && t + [] == t;
    match a {
      case Say(text) => SayMore(t, g, text);
      case Think(text) => ThinkMore(t, g, text);
      case _ =>
    }
  }

  lemma SayMore(t: seq<ResponseEvent>, g: seq<Action>, text: string)
    requires Numbered(t) && Dones(t) == Turns(g)
    ensures var u := t + FramesOf(g, Say(text));
      Numbered(u) && Dones(u) == Turns(g + [Say(text)]) &&
      PartsAdded(u) == PartsAdded(t) + if TextOf(g) == "" then 1 else 0
  {
    hide Numbered, Dones, PartsAdded, Thinking, Turns, TextOf;
    var k := Turns(g + [Say(text)]);
    HistoryReads(g, Say(text));
    SayNumbered(t, Thinking(g), TextOf(g) == "", text);
    SayOrder(t, if Thinking(g) then [ReasoningDone(0, Turns(g))] else [],
      if TextOf(g) == "" then [ItemAdded(0, Message("")), PartAdded(0, k)] else [], [TextDelta(0, k, text)]);
  }

  lemma ThinkMore(t: seq<ResponseEvent>, g: seq<Action>, text: string)
    requires Numbered(t) && Dones(t) == Turns(g)
    ensures var u := t + FramesOf(g, Think(text));
      Numbered(u) && Dones(u) == Turns(g) && PartsAdded(u) == PartsAdded(t) + if Thinking(g) then 0 else 1
  {
    hide Numbered, Dones, PartsAdded, Thinking, Turns;
    ThinkNumbered(t, !Thinking(g), text);
    SayOrder(t, [], if Thinking(g) then [] else [ItemAdded(0, Message("")), PartAdded(0, Turns(g))],
      [ReasoningDelta(0, Turns(g), text)]);
  }

  lemma {:induction false} CountsInFrames(t: seq<ResponseEvent>)
    ensures Dones(FramesIn(t)) == Dones(t) && PartsAdded(FramesIn(t)) == PartsAdded(t)
    decreases |t|
  {
    if t != [] {
      hide Dones, PartsAdded, FramesIn;
      var (u, e) := (t[..|t| - 1], t[|t| - 1]);
      assert t == u + [e];
      CountsInFrames(u);
      FramesSnoc(u, e);
      FramesSnoc(FramesIn(u), e);
    }
  }

  lemma {:induction false} CountsAppend(t: seq<ResponseEvent>, u: seq<ResponseEvent>)
    ensures Dones(t + u) == Dones(t) + Dones(u) && PartsAdded(t + u) == PartsAdded(t) + PartsAdded(u)
    decreases |u|
  {
    if u == [] {
      assert t + u == t;
    } else {
      hide Dones, PartsAdded;
      var (v, e) := (u[..|u| - 1], u[|u| - 1]);
      assert u == v + [e] && t + u == t + v + [e];
      CountsAppend(t, v);
      FramesSnoc(t + v, e);
      FramesSnoc(v, e);
    }
  }

  lemma {:induction false} CallsDoneCounts(setup: Setup, calls: seq<CallInput>, offset: nat)
    ensures Dones(CallsDone(setup, calls, offset)) == 0 && PartsAdded(CallsDone(setup, calls, offset)) == 0
    decreases |calls|
  {
    hide CallDone, CallsDone, Dones, PartsAdded;
    CallsDoneStep(setup, calls, offset);
    if calls == [] {
      NoCounts();
    } else {
      var n := |calls| - 1;
      CallsDoneCounts(setup, calls[..n], offset);
      CountsAppend(CallsDone(setup, calls[..n], offset), CallDone(setup, calls[n], n + offset));
      CallDoneCounts(setup, calls[n], n + offset);
    }
  }

  lemma CallsDoneStep(setup: Setup, calls: seq<CallInput>, offset: nat)
    ensures CallsDone(setup, calls, offset) ==
      if calls == [] then []
      else
        CallsDone(setup, calls[..|calls| - 1], offset) + CallDone(setup, calls[|calls| - 1], |calls| - 1 + offset)
  {
    hide CallDone;
  }

  lemma NoCounts()
    ensures Dones([]) == 0 && PartsAdded([]) == 0
  {
  }

  lemma CallDoneCounts(setup: Setup, call: CallInput, index: nat)
    ensures Dones(CallDone(setup, call, index)) == 0 && PartsAdded(CallDone(setup, call, index)) == 0
  {
    hide Dones, PartsAdded, Concat;
    var done := CallDone(setup, call, index);
    assert done == [] + [done[0]] + [done[1]];
    FramesSnoc([], done[0]);
    FramesSnoc([] + [done[0]], done[1]);
    NoCounts();
  }

  lemma TextDoneCounts(k: nat, text: string)
    ensures var t := [TextDone(0, k, text), PartDone(0, k, text), ItemDone(0, Message(text))];
      Dones(t) == 0 && PartsAdded(t) == 0
  {
    hide Dones, PartsAdded;
    var (x, y, z) := (TextDone(0, k, text), PartDone(0, k, text), ItemDone(0, Message(text)));
    NoCounts();
    FramesSnoc([], x);
    FramesSnoc([] + [x], y);
    FramesSnoc([] + [x] + [y], z);
    assert [] + [x] + [y] + [z] == [x, y, z];
  }

  lemma OneDoneCounts(i: nat, k: nat)
    ensures var t := [ReasoningDone(i, k)]; Dones(t) == 1 && PartsAdded(t) == 0
  {
    hide Dones, PartsAdded;
    NoCounts();
    FramesSnoc([], ReasoningDone(i, k));
    assert [] + [ReasoningDone(i, k)] == [ReasoningDone(i, k)];
  }

  lemma ClosingCounts(setup: Setup, h: seq<Action>)
    ensures Dones(Closing(setup, h)) == (if Thinking(h) then 1 else 0) && PartsAdded(Closing(setup, h)) == 0
  {
    hide Dones, PartsAdded, Thinking, Turns, TextOf, CallsDone, CallsOf;
    var (text, k) := (TextOf(h), Turns(h));
    var offset := if text == "" then 0 else 1;
    var a := if text == "" then [] else [TextDone(0, k, text), PartDone(0, k, text), ItemDone(0, Message(text))];
    var b := if Thinking(h) then [ReasoningDone(offset, k)] else [];
    NoCounts();
    TextDoneCounts(k, text);
    OneDoneCounts(offset, k);
    CountsAppend(a, b);
    CountsAppend(a + b, CallsDone(setup, CallsOf(h), offset));
    CallsDoneCounts(setup, CallsOf(h), offset);
  }

  /** Up to the closing events every message event is in its place; and up to the completion one part is announced for
      each beginning of reasoning, and one for the text, while an end of reasoning is sent for every beginning, except
      for those that a tool call interrupts. */
  predicate Balanced(setup: Setup, t: seq<ResponseEvent>, p: nat, g: seq<Action>) {
    var n := p - |Closing(setup, g)|;
    0 <= n <= p < |t| && t[p].Completed? && Numbered(FramesIn(t[..n])) &&
    PartsAdded(t[..p]) == Begins(g) + (if TextOf(g) == "" then 0 else 1) &&
    Dones(t[..p]) + Interrupted(g) == Begins(g)
  }

  lemma ClosesBalanced(setup: Setup, t: seq<ResponseEvent>, p: nat, g: seq<Action>)
    requires AllProper(g) && Closes(setup, t, p, g)
    ensures Balanced(setup, t, p, g)
  {
    hide Proper, Closing, FramesIn, Framed, Numbered, Dones, PartsAdded, Thinking, Turns, Begins, Interrupted, TextOf;
    var n := p - |Closing(setup, g)|;
    FramedNumbered(g);
    CountsInFrames(t[..n]);
    ClosingCounts(setup, g);
    assert t[..p] == t[..n] + t[n..p];
    CountsAppend(t[..n], t[n..p]);
  }

  /** Main result, for every run: all reasoning that began is ended before the completion exactly if no tool call came
      while it was open. */
  lemma ReasoningEndsIff(setup: Setup, chunks: seq<StreamChunk>)
    requires setup.Valid()
    ensures var (h, t) := (RunActions(setup, INITIAL, chunks), Whole(setup, chunks).core.trace);
      exists p: nat, g: seq<Action> :: CutAt(h, g) && Balanced(setup, t, p, g) &&
        (Dones(t[..p]) == Begins(g) <==> Interrupted(g) == 0)
  {
    hide RunActions, ActAll, Closes, CutAt, Chunked, CompletedIn, Proper, Begins, Interrupted, Dones, PartsAdded,
      Numbered, Closing, FramesIn, TextOf, Whole;
    var (h, t) := (RunActions(setup, INITIAL, chunks), Whole(setup, chunks).core.trace);
    Frames(setup, chunks);
    var p: nat, g: seq<Action> :| CutAt(h, g) && Closes(setup, t, p, g);
    RunProper(setup, INITIAL, chunks);
    ProperPart(h, g);
    ClosesBalanced(setup, t, p, g);
    assert CutAt(h, g) && Balanced(setup, t, p, g);
  }
}
