/** When every delta fits the block it goes into: an exact condition on what upstream sends. */
module AnthropicTyping {
  import opened Chunks
  import opened Options
  import opened Normalizer
  import opened AnthropicStream
  import opened AnthropicTrace

  /** The block open after a trace. */
  function OpenKind(t: seq<SseEvent>): Option<Kind> {
    if t == [] then None
    else
      match t[|t| - 1]
      case BlockStart(_, kind) => Some(kind)
      case BlockStop(_) => None
      case _ => OpenKind(t[..|t| - 1])
  }

  predicate Carries(kind: Kind, part: Part) {
    match part
    case TextDelta(_) => kind.TextBlock?
    case ThinkingDelta(_) => kind.ThinkingBlock?
    case JsonDelta(_) => kind.ToolBlock?
  }

  /** Every delta belongs to an open block of its own kind. */
  predicate WellTyped(t: seq<SseEvent>) {
    forall k :: 0 <= k < |t| && t[k].BlockDelta? ==>
      OpenKind(t[..k]).Some? && Carries(OpenKind(t[..k]).value, t[k].part)
  }

  // ---- What upstream sent before ----

  predicate Finished(h: seq<Action>) {
    exists i :: 0 <= i < |h| && h[i].Finish?
  }

  /** The last text, reasoning, tool start or first finish. */
  function LastBlock(h: seq<Action>): Option<Action>
    decreases |h|
  {
    if h == [] then None
    else
      var (init, last) := (h[..|h| - 1], h[|h| - 1]);
      if last.Say? || last.Think? || last.ToolStart? || (last.Finish? && !Finished(init)) then Some(last)
      else LastBlock(init)
  }

  /** Was the last piece of speech reasoning? */
  predicate Thinking(h: seq<Action>)
    decreases |h|
  {
    h != [] &&
    (h[|h| - 1].Think? || (!h[|h| - 1].Say? && Thinking(h[..|h| - 1])))
  }

  /** Text must not follow a tool start directly, unless the last speech was reasoning; reasoning after reasoning must
      not have a tool start or the finish in between; tool arguments need a tool start as the last block. */
  predicate Proper(h: seq<Action>, a: Action) {
    var last := LastBlock(h);
    match a
    case Say(_) => last.Some? && last.value.ToolStart? ==> Thinking(h)
    case Think(_) => Thinking(h) ==> last.Some? && last.value.Think?
    case ToolArgs(_) => last.Some? && last.value.ToolStart?
    case _ => true
  }

  predicate AllProper(h: seq<Action>) {
    forall i :: 0 <= i < |h| ==> Proper(h[..i], h[i])
  }

  function KindFor(last: Option<Action>): Option<Kind> {
    if last == None then None
    else
      match last.value
      case Say(_) => Some(TextBlock)
      case Think(_) => Some(ThinkingBlock)
      case ToolStart(id, name) => Some(ToolBlock(id, name))
      case _ => None
  }

  /** The translator's state is what the history says. */
  predicate Tracks(c: Core, h: seq<Action>) {
    WellTyped(c.trace) && OpenKind(c.trace) == KindFor(LastBlock(h)) && c.blockOpen == OpenKind(c.trace).Some? &&
    c.inThinking == Thinking(h) && c.finished == Finished(h)
  }

  lemma OpenSnoc(t: seq<SseEvent>, e: SseEvent)
    ensures OpenKind(t + [e]) ==
      if e.BlockStart? then Some(e.kind) else if e.BlockStop? then None else OpenKind(t)
    ensures WellTyped(t + [e]) <==>
      WellTyped(t) && (e.BlockDelta? ==> OpenKind(t).Some? && Carries(OpenKind(t).value, e.part))
  {
    hide Carries;
    assert (t + [e])[..|t|] == t && (t + [e])[|t|] == e;
    assert forall k :: 0 <= k < |t| ==> (t + [e])[..k] == t[..k] && (t + [e])[k] == t[k];
  }

  lemma SnocFacts(h: seq<Action>, a: Action)
    ensures Finished(h + [a]) <==> Finished(h) || a.Finish?
    ensures Thinking(h + [a]) <==> a.Think? || (!a.Say? && Thinking(h))
    ensures LastBlock(h + [a]) ==
      if a.Say? || a.Think? || a.ToolStart? || (a.Finish? && !Finished(h)) then Some(a) else LastBlock(h)
  {
    var g := h + [a];
    assert g[..|h|] == h && g[|h|] == a;
    if Finished(h) {
      var i :| 0 <= i < |h| && h[i].Finish?;
      assert g[i].Finish?;
    }
    if a.Finish? { assert g[|h|].Finish?; }
  }

  lemma CloseTyped(c: Core)
    ensures WellTyped(c.CloseOpen().trace) <==> WellTyped(c.trace)
    ensures OpenKind(c.CloseOpen().trace) == if c.blockOpen then None else OpenKind(c.trace)
  {
    hide WellTyped;
    OpenSnoc(c.trace, BlockStop(c.blockIndex));
  }

  lemma OpenTyped(c: Core, kind: Kind)
    ensures WellTyped(c.Open(kind).trace) <==> WellTyped(c.trace)
    ensures OpenKind(c.Open(kind).trace) == Some(kind)
  {
    hide WellTyped;
    OpenSnoc(c.trace, BlockStart(c.blockIndex, kind));
  }

  lemma PutTyped(c: Core, part: Part)
    ensures OpenKind(c.Put(part).trace) == OpenKind(c.trace)
    ensures WellTyped(c.Put(part).trace) <==>
      WellTyped(c.trace) && OpenKind(c.trace).Some? && Carries(OpenKind(c.trace).value, part)
  {
    hide WellTyped;
    OpenSnoc(c.trace, BlockDelta(c.blockIndex, part));
  }

  /** Thinking and the last block go together. */
  lemma {:induction false} Together(h: seq<Action>)
    ensures LastBlock(h).Some? && LastBlock(h).value.Think? ==> Thinking(h)
    ensures LastBlock(h).Some? && LastBlock(h).value.Say? ==> !Thinking(h)
    ensures LastBlock(h).Some? ==> !LastBlock(h).value.Start? && !LastBlock(h).value.ToolArgs?
    decreases |h|
  {
    if h != [] { Together(h[..|h| - 1]); }
  }

  /** One action: a delta goes wrong exactly when the action is not proper. */
  lemma ActTyped(c: Core, h: seq<Action>, a: Action)
    requires Tracks(c, h)
    ensures Proper(h, a) ==> Tracks(Act(c, a), h + [a])
    ensures !Proper(h, a) ==> !WellTyped(Act(c, a).trace)
  {
    hide WellTyped, OpenKind, LastBlock, Thinking, Finished;
    SnocFacts(h, a);
    Together(h);
    CloseTyped(c);
    match a {
      case Start(id, model) => OpenSnoc(c.trace, MessageStart(id, model));
      case Say(text) =>
        var c1 := if c.inThinking then c.CloseOpen().(inThinking := false) else c;
        OpenTyped(c1, TextBlock);
        PutTyped(if c1.blockOpen then c1 else c1.Open(TextBlock), TextDelta(text));
      case Think(text) =>
        OpenTyped(c.CloseOpen(), ThinkingBlock);
        PutTyped(if c.inThinking then c else c.CloseOpen().Open(ThinkingBlock).(inThinking := true),
                 ThinkingDelta(text));
      case ToolStart(id, name) => OpenTyped(c.CloseOpen(), ToolBlock(id, name));
      case ToolArgs(text) => PutTyped(c, JsonDelta(text));
      case Finish(reason, usage) =>
        OpenSnoc(c.CloseOpen().trace, MessageDelta(reason, usage));
        OpenSnoc(c.CloseOpen().trace + [MessageDelta(reason, usage)], MessageStop);
    }
  }

  /** What is mistyped stays mistyped. */
  lemma ActKeepsWrong(c: Core, a: Action)
    ensures c.trace <= Act(c, a).trace
    ensures WellTyped(Act(c, a).trace) ==> WellTyped(c.trace)
  {
    hide WellTyped;
    PrefixTyped(c.trace, Act(c, a).trace);
  }

  lemma PrefixTyped(t: seq<SseEvent>, u: seq<SseEvent>)
    ensures t <= u && WellTyped(u) ==> WellTyped(t)
  {
    hide Carries, OpenKind;
    if t <= u {
      assert forall k :: 0 <= k < |t| ==> u[..k] == t[..k] && u[k] == t[k];
    }
  }

  lemma {:induction false} TypedIffFrom(h: seq<Action>)
    ensures AllProper(h) ==> Tracks(ActAll(EMPTY, h), h)
    ensures WellTyped(ActAll(EMPTY, h).trace) <==> AllProper(h)
    decreases |h|
  {
    hide WellTyped, Tracks, Proper, Act;
    if h == [] {
      EmptyTracks();
    } else {
      var (init, last) := (h[..|h| - 1], h[|h| - 1]);
      TypedIffFrom(init);
      assert h == init + [last];
      assert forall i :: 0 <= i < |init| ==> init[..i] == h[..i] && init[i] == h[i];
      assert AllProper(h) <==> AllProper(init) && Proper(init, last) by {
        assert h[..|init|] == init && h[|init|] == last;
      }
      ActKeepsWrong(ActAll(EMPTY, init), last);
      if AllProper(init) {
        ActTyped(ActAll(EMPTY, init), init, last);
        TracksTyped(Act(ActAll(EMPTY, init), last), h);
      }
    }
  }

  lemma TracksTyped(c: Core, h: seq<Action>)
    ensures Tracks(c, h) ==> WellTyped(c.trace)
  {
  }

  lemma EmptyTracks()
    ensures Tracks(EMPTY, [])
  {
  }

  // ---- Whole runs ----

  /** Everything a run makes the translator do. */
  function RunActions(mode: Mode, s: Translator, chunks: seq<StreamChunk>): seq<Action>
    requires s.normalizer.parser.Valid()
    decreases chunks
  {
    if chunks == [] then FlushActions(mode, s)
    else
      (if Bearing(chunks[0]) then ChunkActions(mode, s.normalizer, chunks[0]) else [])
      + RunActions(mode, Process(mode, s, chunks[0]), chunks[1..])
  }

  lemma {:induction false} RunIsActions(mode: Mode, s: Translator, chunks: seq<StreamChunk>)
    requires s.normalizer.parser.Valid()
    ensures Flushed(mode, Chunked(mode, s, chunks)).core == ActAll(s.core, RunActions(mode, s, chunks))
    decreases chunks
  {
    hide ActAll, ChunkActions, FlushActions, Deliver, Keepalive;
    if chunks != [] {
      var next := Process(mode, s, chunks[0]);
      RunIsActions(mode, next, chunks[1..]);
      if Bearing(chunks[0]) {
        ActAppend(s.core, ChunkActions(mode, s.normalizer, chunks[0]), RunActions(mode, next, chunks[1..]));
      } else {
        assert [] + RunActions(mode, next, chunks[1..]) == RunActions(mode, next, chunks[1..]);
      }
    }
  }

  /** Main result: every delta of a run fits the kind of the open block if and only if upstream kept the order. */
  lemma TypedIff(mode: Mode, chunks: seq<StreamChunk>)
    ensures WellTyped(Whole(mode, chunks).core.trace) <==> AllProper(RunActions(mode, INITIAL, chunks))
  {
    hide WellTyped, AllProper;
    RunIsActions(mode, INITIAL, chunks);
    TypedIffFrom(RunActions(mode, INITIAL, chunks));
  }
}
