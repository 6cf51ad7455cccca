/** Streamed and buffered tool calls agree. */
module ToolAgreement {
  import opened Strings
  import opened Chunks
  import opened Options
  import opened SseBuffer
  import Normalizer
  import A = AnthropicStream
  import AT = AnthropicTrace
  import AY = AnthropicTyping
  import AO = AnthropicOrder
  import AE = AnthropicEnding
  import R = ResponsesStream
  import RS = ResponsesSnapshot
  import RE = ResponsesEnding

  // ---- The reference: fragments belong to the call started last ----

  function Append(calls: seq<ToolCall>, text: string): seq<ToolCall> {
    if calls == [] then []
    else calls[|calls| - 1 := calls[|calls| - 1].(arguments := calls[|calls| - 1].arguments + text)]
  }

  function Start(calls: seq<ToolCall>, id: string, name: string): seq<ToolCall> {
    calls + [ToolCall(id, name, "")]
  }

  function AddLatest(calls: seq<ToolCall>, f: ToolFragment): seq<ToolCall> {
    var calls1 := if f.id != "" then Start(calls, f.id, f.name) else calls;
    if f.arguments != "" then Append(calls1, f.arguments) else calls1
  }

  function Latest(calls: seq<ToolCall>, fragments: seq<ToolFragment>): seq<ToolCall>
    decreases |fragments|
  {
    if fragments == [] then calls
    else AddLatest(Latest(calls, fragments[..|fragments| - 1]), fragments[|fragments| - 1])
  }

  lemma {:induction false} LatestAppend(calls: seq<ToolCall>, a: seq<ToolFragment>, b: seq<ToolFragment>)
    ensures Latest(calls, a + b) == Latest(Latest(calls, a), b)
    decreases |b|
  {
    hide AddLatest;
    if b == [] {
      assert a + b == a;
    } else {
      var n := |b| - 1;
      assert (a + b)[..|a| + n] == a + b[..n];
      LatestAppend(calls, a, b[..n]);
    }
  }

  lemma LatestOne(calls: seq<ToolCall>, f: ToolFragment)
    ensures Latest(calls, [f]) == AddLatest(calls, f)
  {
    hide AddLatest;
    assert [f][..0] == [];
  }

  // ---- StreamTranslator: what a client reads that addresses blocks by their index ----

  /** A tool_use block with the index under which it was started. */
  datatype Block = Block(index: nat, call: ToolCall)

  function AddAt(blocks: seq<Block>, index: nat, text: string): seq<Block> {
    seq(|blocks|, i requires 0 <= i < |blocks| =>
      if blocks[i].index == index
      then Block(index, blocks[i].call.(arguments := blocks[i].call.arguments + text)) else blocks[i])
  }

  /** A JSON delta belongs to the tool_use block with its index; if there is none, nobody reads it. */
  function ReadEvent(blocks: seq<Block>, e: A.SseEvent): seq<Block> {
    if e.BlockStart? && e.kind.ToolBlock? then blocks + [Block(e.index, ToolCall(e.kind.id, e.kind.name, ""))]
    else if e.BlockDelta? && e.part.JsonDelta? then AddAt(blocks, e.index, e.part.text)
    else blocks
  }

  function Read(t: seq<A.SseEvent>): seq<Block> {
    if t == [] then [] else ReadEvent(Read(t[..|t| - 1]), t[|t| - 1])
  }

  function CallsOf(blocks: seq<Block>): seq<ToolCall> {
    seq(|blocks|, i requires 0 <= i < |blocks| => blocks[i].call)
  }

  /** The tool calls of a trace, as read by index. */
  function CallsIn(t: seq<A.SseEvent>): seq<ToolCall> {
    CallsOf(Read(t))
  }

  predicate ToolOpen(c: A.Core) {
    AY.OpenKind(c.trace).Some? && AY.OpenKind(c.trace).value.ToolBlock?
  }

  predicate Ordered(blocks: seq<Block>) {
    forall i, j :: 0 <= i < j < |blocks| ==> blocks[i].index < blocks[j].index
  }

  /** Blocks are read in the order of their indices, and the block being written is the last one if it is a tool_use. */
  predicate Numbered(c: A.Core) {
    var blocks := Read(c.trace);
    Ordered(blocks) && (forall i :: 0 <= i < |blocks| ==> blocks[i].index <= c.blockIndex) &&
    c.blockOpen == AY.OpenKind(c.trace).Some? &&
    (ToolOpen(c) <==> blocks != [] && blocks[|blocks| - 1].index == c.blockIndex)
  }

  lemma ReadSnoc(t: seq<A.SseEvent>, e: A.SseEvent)
    ensures Read(t + [e]) == ReadEvent(Read(t), e)
  {
    assert (t + [e])[..|t|] == t;
  }

  lemma AddToLast(blocks: seq<Block>, index: nat, text: string)
    requires Ordered(blocks) && forall i :: 0 <= i < |blocks| ==> blocks[i].index <= index
    ensures var more := AddAt(blocks, index, text);
      Ordered(more) && |more| == |blocks| && (forall i :: 0 <= i < |more| ==> more[i].index == blocks[i].index) &&
      CallsOf(more) ==
        if blocks != [] && blocks[|blocks| - 1].index == index then Append(CallsOf(blocks), text) else CallsOf(blocks)
  {
    if blocks != [] {
      var last := |blocks| - 1;
      assert forall i :: 0 <= i < last ==> blocks[i].index < blocks[last].index;
    }
  }

  lemma CloseReads(c: A.Core)
    requires Numbered(c)
    ensures var d := c.CloseOpen(); Numbered(d) && !d.blockOpen && CallsIn(d.trace) == CallsIn(c.trace)
  {
    hide Read, AY.OpenKind, AY.WellTyped, CallsOf;
    ReadSnoc(c.trace, A.BlockStop(c.blockIndex));
    AY.CloseTyped(c);
  }

  lemma OpenReads(c: A.Core, kind: A.Kind)
    requires Numbered(c) && !c.blockOpen
    ensures var d := c.Open(kind);
      Numbered(d) && d.blockOpen && (ToolOpen(d) <==> kind.ToolBlock?) &&
      CallsIn(d.trace) == if kind.ToolBlock? then Start(CallsIn(c.trace), kind.id, kind.name) else CallsIn(c.trace)
  {
    hide Read, AY.OpenKind, AY.WellTyped, CallsOf, Start;
    ReadSnoc(c.trace, A.BlockStart(c.blockIndex, kind));
    AY.OpenTyped(c, kind);
    if kind.ToolBlock? { CallsSnoc(Read(c.trace), c.blockIndex, kind.id, kind.name); }
  }

  lemma CallsSnoc(blocks: seq<Block>, index: nat, id: string, name: string)
    ensures CallsOf(blocks + [Block(index, ToolCall(id, name, ""))]) == Start(CallsOf(blocks), id, name)
  {
  }

  lemma PutReads(c: A.Core, part: A.Part)
    requires Numbered(c)
    ensures var d := c.Put(part);
      Numbered(d) && d.blockOpen == c.blockOpen && CallsIn(d.trace) ==
      if part.JsonDelta? && ToolOpen(c) then Append(CallsIn(c.trace), part.text) else CallsIn(c.trace)
  {
    hide Read, AY.OpenKind, AY.WellTyped, CallsOf, AddAt, Ordered, Append;
    ReadSnoc(c.trace, A.BlockDelta(c.blockIndex, part));
    AY.PutTyped(c, part);
    AddToLast(Read(c.trace), c.blockIndex, if part.JsonDelta? then part.text else "");
  }

  lemma EmitReads(c: A.Core, d: A.Core, e: A.SseEvent)
    requires Numbered(c) && d.trace == c.trace + [e] && d.blockIndex == c.blockIndex && d.blockOpen == c.blockOpen
    requires e.MessageStart? || e.MessageDelta? || e.MessageStop?
    ensures Numbered(d) && CallsIn(d.trace) == CallsIn(c.trace)
  {
    hide Read, AY.OpenKind, AY.WellTyped, CallsOf;
    ReadSnoc(c.trace, e);
    AY.OpenSnoc(c.trace, e);
  }

  lemma FlagReads(c: A.Core, d: A.Core)
    requires Numbered(c) && d.trace == c.trace && d.blockIndex == c.blockIndex && d.blockOpen == c.blockOpen
    ensures Numbered(d) && (ToolOpen(d) <==> ToolOpen(c))
  {
  }

  /** Arguments reach the latest call if and only if a tool_use block is open. */
  lemma ActReads(c: A.Core, a: A.Action)
    requires Numbered(c)
    ensures var d := A.Act(c, a);
      Numbered(d) && (a.ToolStart? ==> ToolOpen(d)) && CallsIn(d.trace) ==
      if a.ToolStart? then Start(CallsIn(c.trace), a.id, a.name)
      else if a.ToolArgs? && ToolOpen(c) then Append(CallsIn(c.trace), a.text)
      else CallsIn(c.trace)
  {
    hide Numbered, ToolOpen, CallsIn, Start, Append;
    CloseReads(c);
    var closed := c.CloseOpen();
    match a {
      case Start(id, model) =>
        EmitReads(c, c.Emit(A.MessageStart(id, model)).(started := true), A.MessageStart(id, model));
      case Say(text) =>
        FlagReads(closed, closed.(inThinking := false));
        var c1 := if c.inThinking then closed.(inThinking := false) else c;
        if !c1.blockOpen { OpenReads(c1, A.TextBlock); }
        PutReads(if c1.blockOpen then c1 else c1.Open(A.TextBlock), A.TextDelta(text));
      case Think(text) =>
        OpenReads(closed, A.ThinkingBlock);
        FlagReads(closed.Open(A.ThinkingBlock), closed.Open(A.ThinkingBlock).(inThinking := true));
        PutReads(if c.inThinking then c else closed.Open(A.ThinkingBlock).(inThinking := true), A.ThinkingDelta(text));
      case ToolStart(id, name) => OpenReads(closed, A.ToolBlock(id, name));
      case ToolArgs(text) => PutReads(c, A.JsonDelta(text));
      case Finish(reason, usage) =>
        var (e1, e2) := (A.MessageDelta(reason, usage), A.MessageStop);
        EmitReads(closed, closed.Emit(e1), e1);
        EmitReads(closed.Emit(e1), closed.Emit(e1).Emit(e2).(finished := true), e2);
    }
  }

  // ---- What upstream sent, and when the client reads it ----

  function SentStep(calls: seq<ToolCall>, a: A.Action): seq<ToolCall> {
    match a
    case ToolStart(id, name) => Start(calls, id, name)
    case ToolArgs(text) => Append(calls, text)
    case _ => calls
  }

  /** The calls after more actions: arguments belong to the call started last. */
  function SentFrom(calls: seq<ToolCall>, h: seq<A.Action>): seq<ToolCall>
    decreases |h|
  {
    if h == [] then calls else SentStep(SentFrom(calls, h[..|h| - 1]), h[|h| - 1])
  }

  /** A first finish, reasoning that starts, text that ends reasoning: each closes the open block. */
  predicate Closes(h: seq<A.Action>, a: A.Action) {
    match a
    case Finish(_, _) => !AY.Finished(h)
    case Think(_) => !AY.Thinking(h)
    case Say(_) => AY.Thinking(h)
    case _ => false
  }

  /** A tool call has been started, and its block has not been closed since. */
  predicate ToolIsOpen(h: seq<A.Action>)
    decreases |h|
  {
    h != [] &&
    var (init, last) := (h[..|h| - 1], h[|h| - 1]);
    last.ToolStart? || (!Closes(init, last) && ToolIsOpen(init))
  }

  /** Arguments that come when a call has been started come while its block is open. */
  predicate Lands(h: seq<A.Action>, a: A.Action) {
    a.ToolArgs? && a.text != "" && SentFrom([], h) != [] ==> ToolIsOpen(h)
  }

  predicate Landing(h: seq<A.Action>) {
    forall i :: 0 <= i < |h| ==> Lands(h[..i], h[i])
  }

  lemma LandingSnoc(h: seq<A.Action>)
    requires h != []
    ensures Landing(h) <==> Landing(h[..|h| - 1]) && Lands(h[..|h| - 1], h[|h| - 1])
  {
    hide Lands;
    assert forall i :: 0 <= i < |h| - 1 ==> h[..|h| - 1][..i] == h[..i] && h[..|h| - 1][i] == h[i];
  }

  lemma LandingPrefix(g: seq<A.Action>, h: seq<A.Action>)
    requires g <= h && Landing(h)
    ensures Landing(g)
  {
    hide Lands;
    assert forall i :: 0 <= i < |g| ==> g[..i] == h[..i] && g[i] == h[i];
  }

  lemma ActOpens(c: A.Core, a: A.Action)
    requires Numbered(c)
    ensures ToolOpen(A.Act(c, a)) <==>
      a.ToolStart? ||
      (ToolOpen(c) && !(a.Finish? && !c.finished) && !(a.Think? && !c.inThinking) && !(a.Say? && c.inThinking))
  {
    hide Read, Ordered, AY.WellTyped, AY.OpenKind;
    AY.CloseTyped(c);
    match a {
      case Start(id, model) => AY.OpenSnoc(c.trace, A.MessageStart(id, model));
      case Say(text) =>
        var c1 := if c.inThinking then c.CloseOpen().(inThinking := false) else c;
        AY.OpenTyped(c1, A.TextBlock);
        AY.PutTyped(if c1.blockOpen then c1 else c1.Open(A.TextBlock), A.TextDelta(text));
      case Think(text) =>
        var c1 := c.CloseOpen().Open(A.ThinkingBlock).(inThinking := true);
        AY.OpenTyped(c.CloseOpen(), A.ThinkingBlock);
        AY.PutTyped(if c.inThinking then c else c1, A.ThinkingDelta(text));
      case ToolStart(id, name) => AY.OpenTyped(c.CloseOpen(), A.ToolBlock(id, name));
      case ToolArgs(text) => AY.PutTyped(c, A.JsonDelta(text));
      case Finish(reason, usage) =>
        AY.OpenSnoc(c.CloseOpen().trace, A.MessageDelta(reason, usage));
        AY.OpenSnoc(c.CloseOpen().trace + [A.MessageDelta(reason, usage)], A.MessageStop);
    }
  }

  lemma {:induction false} HistoryOpens(h: seq<A.Action>)
    ensures Numbered(A.ActAll(A.EMPTY, h)) && (ToolOpen(A.ActAll(A.EMPTY, h)) <==> ToolIsOpen(h))
    decreases |h|
  {
    hide Numbered, ToolOpen, CallsIn, A.Act, AY.Finished, AY.Thinking, AE.HasStart;
    if h == [] {
      NothingRead();
    } else {
      var n := |h| - 1;
      HistoryOpens(h[..n]);
      AE.Flags(h[..n]);
      ActReads(A.ActAll(A.EMPTY, h[..n]), h[n]);
      ActOpens(A.ActAll(A.EMPTY, h[..n]), h[n]);
    }
  }

  lemma NothingRead()
    ensures Numbered(A.EMPTY) && CallsIn(A.EMPTY.trace) == [] && !ToolOpen(A.EMPTY)
  {
  }

  function Size(calls: seq<ToolCall>): nat {
    if calls == [] then 0 else Size(calls[..|calls| - 1]) + |calls[|calls| - 1].arguments|
  }

  /** As many calls, but some arguments are missing. */
  predicate Short(read: seq<ToolCall>, all: seq<ToolCall>) {
    |read| == |all| && Size(read) < Size(all)
  }

  lemma StartSize(calls: seq<ToolCall>, id: string, name: string)
    ensures Size(Start(calls, id, name)) == Size(calls) && |Start(calls, id, name)| == |calls| + 1
  {
    assert Start(calls, id, name)[..|calls|] == calls;
  }

  lemma AppendSize(calls: seq<ToolCall>, text: string)
    ensures |Append(calls, text)| == |calls|
    ensures calls != [] ==> Size(Append(calls, text)) == Size(calls) + |text|
    ensures calls == [] || text == "" ==> Append(calls, text) == calls
  {
    if calls != [] {
      var n := |calls| - 1;
      assert Append(calls, text)[..n] == calls[..n];
      assert calls[n].arguments + "" == calls[n].arguments;
    }
  }

  /** One action: what is read stays equal to what was sent, or falls behind for good. */
  lemma StepFollows(c: A.Core, all: seq<ToolCall>, h: seq<A.Action>, a: A.Action)
    requires c == A.ActAll(A.EMPTY, h) && all == SentFrom([], h) && |CallsIn(c.trace)| == |all|
    ensures var (was, read, sent) := (CallsIn(c.trace), CallsIn(A.Act(c, a).trace), SentStep(all, a));
      |read| == |sent| && (was == all && Lands(h, a) ==> read == sent) &&
      (was == all && !Lands(h, a) ==> Short(read, sent)) &&
      (Short(was, all) ==> Short(read, sent))
  {
    hide Numbered, ToolOpen, CallsIn, Start, Append, Size, A.Act, A.ActAll, ToolIsOpen, SentFrom;
    var was := CallsIn(c.trace);
    HistoryOpens(h);
    ActReads(c, a);
    if a.ToolStart? {
      StartSize(was, a.id, a.name);
      StartSize(all, a.id, a.name);
    } else if a.ToolArgs? {
      AppendSize(was, a.text);
      AppendSize(all, a.text);
    }
  }

  /** For every history: a client that reads blocks by their index reads every argument if and only if each lands. */
  lemma {:induction false} HistoryCalls(h: seq<A.Action>)
    ensures var (read, sent) := (CallsIn(A.ActAll(A.EMPTY, h).trace), SentFrom([], h));
      |read| == |sent| && (if Landing(h) then read == sent else Short(read, sent))
    decreases |h|
  {
    hide CallsIn, A.Act, SentStep, Lands, Landing, Short;
    if h == [] {
      NothingRead();
      assert Landing([]) by { NothingLands(); }
    } else {
      var n := |h| - 1;
      HistoryCalls(h[..n]);
      StepFollows(A.ActAll(A.EMPTY, h[..n]), SentFrom([], h[..n]), h[..n], h[n]);
      LandingSnoc(h);
    }
  }

  lemma NothingLands()
    ensures Landing([])
  {
  }

  // ---- From actions to chunks ----

  lemma {:induction false} SentAppend(calls: seq<ToolCall>, a: seq<A.Action>, b: seq<A.Action>)
    ensures SentFrom(calls, a + b) == SentFrom(SentFrom(calls, a), b)
    decreases |b|
  {
    hide SentStep;
    if b == [] {
      assert a + b == a;
    } else {
      var n := |b| - 1;
      assert (a + b)[..|a| + n] == a + b[..n];
      SentAppend(calls, a, b[..n]);
    }
  }

  /** Nothing but speech and finishes: the calls stay as they are. */
  predicate Speechless(h: seq<A.Action>) {
    forall i :: 0 <= i < |h| ==> !h[i].ToolStart? && !h[i].ToolArgs?
  }

  lemma {:induction false} SpeechSends(calls: seq<ToolCall>, h: seq<A.Action>)
    requires Speechless(h)
    ensures SentFrom(calls, h) == calls
    decreases |h|
  {
    if h != [] { SpeechSends(calls, h[..|h| - 1]); }
  }

  lemma {:induction false} SpeechHasNoTools(out: seq<Normalizer.Emission>, skip: bool)
    ensures Speechless(A.SpeechActions(out, skip))
  {
    if out != [] { SpeechHasNoTools(out[1..], skip); }
  }

  lemma FragmentSends(calls: seq<ToolCall>, f: ToolFragment)
    ensures SentFrom(calls, A.FragmentActions(f)) == AddLatest(calls, f)
  {
    hide Start, Append;
    var a := if f.id != "" then [A.ToolStart(f.id, f.name)] else [];
    var b := if f.arguments != "" then [A.ToolArgs(f.arguments)] else [];
    SentAppend(calls, a, b);
  }

  lemma {:induction false} ToolsSend(calls: seq<ToolCall>, fragments: seq<ToolFragment>)
    ensures SentFrom(calls, A.ToolActions(fragments)) == Latest(calls, fragments)
    decreases |fragments|
  {
    hide AddLatest, A.FragmentActions;
    if fragments != [] {
      var (f, later) := (fragments[0], fragments[1..]);
      SentAppend(calls, A.FragmentActions(f), A.ToolActions(later));
      FragmentSends(calls, f);
      ToolsSend(AddLatest(calls, f), later);
      assert fragments == [f] + later;
      LatestAppend(calls, [f], later);
      LatestOne(calls, f);
    }
  }

  lemma TalkSends(mode: A.Mode, n: Normalizer.State, c: StreamChunk, calls: seq<ToolCall>)
    requires n.parser.Valid() && c.choices != []
    ensures SentFrom(calls, AE.Talk(mode, n, c)) == Latest(calls, c.choices[0].toolCalls)
    ensures SentFrom(calls, A.ChunkActions(mode, n, c)) == Latest(calls, c.choices[0].toolCalls)
  {
    hide A.SpeechActions, A.ToolActions, Normalizer.Deliver, Latest, SentFrom;
    var choice := c.choices[0];
    var out := Normalizer.Deliver(n, choice.content, choice.reasoning).1;
    var (first, speech) := ([A.Start(c.id, c.model)], A.SpeechActions(out, mode.skipThinking));
    SpeechHasNoTools(out, mode.skipThinking);
    SpeechSends(calls, first + speech);
    SentAppend(calls, first + speech, A.ToolActions(choice.toolCalls));
    ToolsSend(calls, choice.toolCalls);
    AE.TalkIs(mode, n, c);
    if choice.finishReason.Some? {
      var last := [A.Finish(mode.mapReason(choice.finishReason.value), c.usage)];
      SentAppend(calls, AE.Talk(mode, n, c), last);
      SpeechSends(Latest(calls, choice.toolCalls), last);
    }
  }

  lemma {:induction false} RunSends(mode: A.Mode, s: A.Translator, chunks: seq<StreamChunk>, calls: seq<ToolCall>)
    requires s.normalizer.parser.Valid()
    ensures SentFrom(calls, AY.RunActions(mode, s, chunks)) == Latest(calls, AllFragments(chunks))
    ensures SentFrom(calls, AE.PartsOf(mode, s, chunks).before) == Latest(calls, AllFragments(Upto(chunks)))
    decreases chunks
  {
    hide A.ChunkActions, A.SpeechActions, Keepalive, A.Process, Normalizer.Close, AE.Talk, AddLatest, SentStep;
    if chunks == [] {
      SpeechHasNoTools(Normalizer.Close(s.normalizer).1, mode.skipThinking);
      SpeechSends(calls, A.FlushActions(mode, s));
      SpeechSends(calls, A.SpeechActions(Normalizer.Close(s.normalizer).1, mode.skipThinking));
    } else {
      var (c, next, rest) := (chunks[0], A.Process(mode, s, chunks[0]), chunks[1..]);
      var tail := if Ends(c) then [] else Upto(rest);
      FragmentsCons(c, tail);
      if Bearing(c) {
        var (own, sent) := (c.choices[0].toolCalls, Latest(calls, c.choices[0].toolCalls));
        TalkSends(mode, s.normalizer, c, calls);
        RunSends(mode, next, rest, sent);
        SentAppend(calls, A.ChunkActions(mode, s.normalizer, c), AY.RunActions(mode, next, rest));
        SentAppend(calls, AE.Talk(mode, s.normalizer, c), AE.PartsOf(mode, next, rest).before);
        LatestAppend(calls, own, AllFragments(rest));
        LatestAppend(calls, own, AllFragments(tail));
      } else {
        RunSends(mode, next, rest, calls);
        assert [] + AY.RunActions(mode, next, rest) == AY.RunActions(mode, next, rest);
        assert [] + AllFragments(rest) == AllFragments(rest);
      }
    }
  }

  lemma FragmentsCons(c: StreamChunk, chunks: seq<StreamChunk>)
    ensures AllFragments([c] + chunks) == (if Bearing(c) then c.choices[0].toolCalls else []) + AllFragments(chunks)
    ensures AllFragments([]) == [] && (!Bearing(c) ==> AllFragments([c] + chunks) == AllFragments(chunks))
  {
    hide Keepalive;
    assert ([c] + chunks)[1..] == chunks && [] + AllFragments(chunks) == AllFragments(chunks);
  }

  /** Exact, for every run and its whole trace: a client that reads blocks by their index gets every argument fragment
      into the call started last if and only if each of them, once a call has started, comes while a tool call's block
      is open. */
  lemma AnthropicCalls(mode: A.Mode, chunks: seq<StreamChunk>)
    ensures CallsIn(AT.Whole(mode, chunks).core.trace) == Latest([], AllFragments(chunks)) <==>
      Landing(AY.RunActions(mode, A.INITIAL, chunks))
  {
    hide CallsIn, Latest, Landing, AT.Whole, A.ActAll, AY.RunActions, SentFrom, AE.PartsOf, AllFragments;
    AE.WholeIsRun(mode, chunks);
    HistoryCalls(AY.RunActions(mode, A.INITIAL, chunks));
    RunSends(mode, A.INITIAL, chunks, []);
  }

  // ---- What has been sent when the message ends ----

  lemma {:induction false} TraceGrows(c: A.Core, h: seq<A.Action>)
    ensures c.trace <= A.ActAll(c, h).trace
    decreases |h|
  {
    hide A.Act;
    if h != [] {
      TraceGrows(c, h[..|h| - 1]);
      AY.ActKeepsWrong(A.ActAll(c, h[..|h| - 1]), h[|h| - 1]);
    }
  }

  lemma {:induction false} CountHit(t: seq<A.SseEvent>, i: nat, tag: AT.Tag)
    requires i < |t| && AT.Is(t[i], tag)
    ensures AT.Count(t, tag) >= 1
  {
    hide AT.Is;
    if i < |t| - 1 { CountHit(t[..|t| - 1], i, tag); }
  }

  lemma {:induction false} CountTwice(t: seq<A.SseEvent>, i: nat, j: nat, tag: AT.Tag)
    requires i < j < |t| && AT.Is(t[i], tag) && AT.Is(t[j], tag)
    ensures AT.Count(t, tag) >= 2
  {
    hide AT.Is;
    if j < |t| - 1 { CountTwice(t[..|t| - 1], i, j, tag); } else { CountHit(t[..|t| - 1], i, tag); }
  }

  lemma OneEnd(t: seq<A.SseEvent>, p: nat, q: nat)
    requires p < |t| && q < |t| && t[p].MessageDelta? && t[q].MessageDelta? && AT.Count(t, AT.Summary) == 1
    ensures p == q
  {
    hide AT.Count;
    if p < q { CountTwice(t, p, q, AT.Summary); }
    if q < p { CountTwice(t, q, p, AT.Summary); }
  }

  /** The message ends once, and all before that is what the actions before the first finish make of it. */
  lemma EndOfRun(mode: A.Mode, chunks: seq<StreamChunk>) returns (p: nat)
    ensures var (t, g) := (AT.Whole(mode, chunks).core.trace, AE.PartsOf(mode, A.INITIAL, chunks).before);
      AT.EndsAt(t, p) && t[..p] == A.ActAll(A.EMPTY, g).CloseOpen().trace &&
      var f := AE.PartsOf(mode, A.INITIAL, chunks).finish; f.Finish? && t[p] == A.MessageDelta(f.reason, f.usage)
  {
    hide A.ActAll, AT.WellBracketed, AT.Count, AE.PartsOf, AY.RunActions, AY.Finished, AE.HasStart, AT.Whole;
    var parts := AE.PartsOf(mode, A.INITIAL, chunks);
    var (g, t) := (parts.before, AT.Whole(mode, chunks).core.trace);
    AE.RunIsParts(mode, A.INITIAL, chunks);
    AE.WholeIsRun(mode, chunks);
    AE.FinishEnds(g, parts.finish);
    A.ActAppend(A.EMPTY, g + [parts.finish], parts.after);
    TraceGrows(A.ActAll(A.EMPTY, g + [parts.finish]), parts.after);
    var before := A.ActAll(A.EMPTY, g).CloseOpen().trace;
    AT.TraceShape(mode, chunks);
    p :| AT.EndsAt(t, p);
    assert t[|before|].MessageDelta? && t[..|before|] == before;
    OneEnd(t, p, |before|);
  }

  /** What the client has read before `p`. */
  function CallsUntil(t: seq<A.SseEvent>, p: nat): seq<ToolCall> {
    if p <= |t| then CallsIn(t[..p]) else []
  }

  /** Main result, for every run: what the client has read when the message ends is every call that upstream sent up
      to and in the first chunk that finishes it if each argument landed, and arguments are missing otherwise. */
  lemma CallsAtEnd(mode: A.Mode, chunks: seq<StreamChunk>)
    ensures var (t, sent) := (AT.Whole(mode, chunks).core.trace, Latest([], AllFragments(Upto(chunks))));
      exists p: nat :: AT.EndsAt(t, p) &&
        if Landing(AE.PartsOf(mode, A.INITIAL, chunks).before)
        then CallsUntil(t, p) == sent else Short(CallsUntil(t, p), sent)
  {
    hide CallsIn, Latest, Landing, AT.Whole, AT.Count, A.ActAll, AY.RunActions, SentFrom, AE.PartsOf, AllFragments,
      Numbered, ToolOpen, Short;
    var g := AE.PartsOf(mode, A.INITIAL, chunks).before;
    var p := EndOfRun(mode, chunks);
    HistoryOpens(g);
    HistoryCalls(g);
    CloseReads(A.ActAll(A.EMPTY, g));
    RunSends(mode, A.INITIAL, chunks, []);
    var (t, sent) := (AT.Whole(mode, chunks).core.trace, Latest([], AllFragments(Upto(chunks))));
    assert AT.EndsAt(t, p);
    assert if Landing(g) then CallsUntil(t, p) == sent else Short(CallsUntil(t, p), sent);
  }

  // ---- An upstream that loses arguments ----

  function Plain(reasoning: string, fragments: seq<ToolFragment>): StreamChunk {
    StreamChunk("", "", 0, [Choice("", reasoning, fragments, None)], None)
  }

  lemma PlainActs(mode: A.Mode, n: Normalizer.State, reasoning: string, fragments: seq<ToolFragment>)
    requires n.parser.Valid() && !mode.skipThinking
    ensures var c := Plain(reasoning, fragments);
      Bearing(c) && A.ChunkActions(mode, n, c) ==
        [A.Start("", "")] + (if reasoning == "" then [] else [A.Think(reasoning)]) + A.ToolActions(fragments)
  {
    hide A.ToolActions;
    var out := Normalizer.Deliver(n, "", reasoning).1;
    assert out == if reasoning == "" then [] else [Normalizer.Reasoning(reasoning)];
    assert A.SpeechActions(out, mode.skipThinking) == if reasoning == "" then [] else [A.Think(reasoning)] by {
      if reasoning != "" { assert out[1..] == [] && [A.Think(reasoning)] + [] == [A.Think(reasoning)]; }
    }
  }

  lemma OneFragment(f: ToolFragment)
    ensures f.id != "" && f.arguments == "" ==> A.ToolActions([f]) == [A.ToolStart(f.id, f.name)]
    ensures f.id == "" && f.arguments != "" ==> A.ToolActions([f]) == [A.ToolArgs(f.arguments)]
    ensures A.ToolActions([]) == []
  {
    var (start, text) := ([A.ToolStart(f.id, f.name)], [A.ToolArgs(f.arguments)]);
    assert start + [] + [] == start && [] + text + [] == text;
  }

  /** A call is started, then reasoning comes, then its arguments: they go out under the index of the thinking block. */
  lemma ReasoningLosesArguments(mode: A.Mode)
    requires !mode.skipThinking
    ensures var chunks :=
      [Plain("", [ToolFragment(0, "a", "f", "")]), Plain("r", []), Plain("", [ToolFragment(0, "", "", "1")])];
      CallsIn(AT.Whole(mode, chunks).core.trace) != Latest([], AllFragments(chunks))
  {
    hide A.ActAll, CallsIn, AT.Whole, Latest, AllFragments, Landing, A.ToolActions, A.ChunkActions, AY.RunActions,
      A.Process, Bearing;
    var (f, g) := (ToolFragment(0, "a", "f", ""), ToolFragment(0, "", "", "1"));
    var (x, y, z) := (Plain("", [f]), Plain("r", []), Plain("", [g]));
    var s1 := A.Process(mode, A.INITIAL, x);
    var s2 := A.Process(mode, s1, y);
    PlainActs(mode, A.INITIAL.normalizer, "", [f]);
    PlainActs(mode, s1.normalizer, "r", []);
    PlainActs(mode, s2.normalizer, "", [g]);
    OneFragment(f);
    OneFragment(g);
    RunFirst(mode, A.INITIAL, x, [y, z]);
    RunFirst(mode, s1, y, [z]);
    RunFirst(mode, s2, z, []);
    assert [x, y, z] == [x] + [y, z] && [y, z] == [y] + [z] && [z] == [z] + [];
    var h := AY.RunActions(mode, A.INITIAL, [x, y, z]);
    var start := A.Start("", "");
    var k := [start, A.ToolStart("a", "f"), start, A.Think("r"), start, A.ToolArgs("1")];
    var rest := AY.RunActions(mode, A.Process(mode, s2, z), []);
    assert h == [start] + [] + [A.ToolStart("a", "f")] +
      ([start] + [A.Think("r")] + [] + ([start] + [] + [A.ToolArgs("1")] + rest));
    assert h == k + rest;
    LostBehindReasoning(start);
    if Landing(h) { LandingPrefix(k, h); }
    AnthropicCalls(mode, [x, y, z]);
  }

  lemma RunFirst(mode: A.Mode, s: A.Translator, c: StreamChunk, rest: seq<StreamChunk>)
    requires s.normalizer.parser.Valid() && Bearing(c)
    ensures AY.RunActions(mode, s, [c] + rest) ==
      A.ChunkActions(mode, s.normalizer, c) + AY.RunActions(mode, A.Process(mode, s, c), rest)
  {
    hide A.ChunkActions, A.Process;
    assert ([c] + rest)[1..] == rest;
  }

  lemma LostBehindReasoning(start: A.Action)
    requires start.Start?
    ensures !Landing([start, A.ToolStart("a", "f"), start, A.Think("r"), start, A.ToolArgs("1")])
  {
    hide ToolIsOpen, SentFrom, AY.Thinking, AY.Finished;
    var (tool, think, args) := (A.ToolStart("a", "f"), A.Think("r"), A.ToolArgs("1"));
    var h1 := [] + [start];
    var h2 := h1 + [tool];
    var h3 := h2 + [start];
    var h4 := h3 + [think];
    var h5 := h4 + [start];
    NothingOpen();
    OneMore([], start);
    OneMore(h1, tool);
    OneMore(h2, start);
    OneMore(h3, think);
    OneMore(h4, start);
    var h := h5 + [args];
    assert h == [start, tool, start, think, start, args];
    assert h[..5] == h5 && h[5] == args;
    assert !Lands(h[..5], h[5]);
  }

  lemma NothingOpen()
    ensures !ToolIsOpen([]) && SentFrom([], []) == [] && !AY.Thinking([])
  {
  }

  lemma OneMore(h: seq<A.Action>, a: A.Action)
    ensures ToolIsOpen(h + [a]) <==> a.ToolStart? || (!Closes(h, a) && ToolIsOpen(h))
    ensures SentFrom([], h + [a]) == SentStep(SentFrom([], h), a)
    ensures AY.Thinking(h + [a]) <==> a.Think? || (!a.Say? && AY.Thinking(h))
  {
    hide AY.LastBlock, AY.Finished;
    assert (h + [a])[..|h|] == h;
  }

  // ---- An orderly upstream ----

  /** In a history without a mistyped delta, arguments come with a tool start as the last block. */
  lemma TypedLands(h: seq<A.Action>)
    requires AY.WellTyped(A.ActAll(A.EMPTY, h).trace)
    ensures Landing(h)
  {
    hide AY.WellTyped, A.ActAll, ToolIsOpen, AY.Proper, Lands;
    AY.TypedIffFrom(h);
    forall i | 0 <= i < |h| ensures Lands(h[..i], h[i]) {
      ProperPrefix(h, i);
      AY.TypedIffFrom(h[..i]);
      HistoryOpens(h[..i]);
      ProperLands(A.ActAll(A.EMPTY, h[..i]), h[..i], h[i]);
    }
  }

  lemma ProperPrefix(h: seq<A.Action>, i: nat)
    requires AY.AllProper(h) && i < |h|
    ensures AY.AllProper(h[..i]) && AY.Proper(h[..i], h[i])
  {
    hide AY.Proper;
    assert forall j :: 0 <= j < i ==> h[..i][..j] == h[..j] && h[..i][j] == h[j];
  }

  lemma ProperLands(c: A.Core, h: seq<A.Action>, a: A.Action)
    requires AY.Tracks(c, h) && AY.Proper(h, a) && (ToolOpen(c) <==> ToolIsOpen(h))
    ensures Lands(h, a)
  {
    hide AY.WellTyped, AY.OpenKind, AY.LastBlock, AY.Thinking, AY.Finished, ToolIsOpen, SentFrom;
  }

  /** An upstream that sends no text or reasoning after the first tool call or finish, and arguments only to an open
      call. */
  lemma {:induction false} OrderlyLandsFrom(mode: A.Mode, s: A.Translator, q: AO.Phase, h: seq<A.Action>,
                                            chunks: seq<StreamChunk>)
    requires s.normalizer.parser.Valid() && s.core == A.ActAll(A.EMPTY, h)
    requires AO.Fits(s.core, q) && AO.Orderly(q, chunks)
    ensures Landing(h + AY.RunActions(mode, s, chunks))
    decreases chunks
  {
    hide AO.Fits, AO.Addressed, AO.NextPhase, Landing, Keepalive, A.ActAll, A.ChunkActions, A.SpeechActions,
      Normalizer.Deliver, Normalizer.Close;
    if chunks == [] {
      FitsTyped(s.core, q);
      TypedLands(h);
      SpeechHasNoTools(Normalizer.Close(s.normalizer).1, mode.skipThinking);
      LandingSpeech(h, A.FlushActions(mode, s));
    } else {
      var (c, rest) := (chunks[0], chunks[1..]);
      var next := A.Process(mode, s, c);
      if Bearing(c) {
        var acts := A.ChunkActions(mode, s.normalizer, c);
        AO.ChunkFits(mode, s.normalizer, s.core, q, c);
        A.ActAppend(A.EMPTY, h, acts);
        OrderlyLandsFrom(mode, next, AO.NextPhase(q, c), h + acts, rest);
        assert h + (acts + AY.RunActions(mode, next, rest)) == h + acts + AY.RunActions(mode, next, rest);
      } else {
        AO.SamePhase(q, c);
        OrderlyLandsFrom(mode, next, q, h, rest);
        assert [] + AY.RunActions(mode, next, rest) == AY.RunActions(mode, next, rest);
      }
    }
  }

  lemma FitsTyped(c: A.Core, q: AO.Phase)
    requires AO.Fits(c, q)
    ensures AY.WellTyped(c.trace)
  {
  }

  lemma LandingSpeech(h: seq<A.Action>, speech: seq<A.Action>)
    requires Landing(h) && Speechless(speech)
    ensures Landing(h + speech)
  {
    hide ToolIsOpen, SentFrom;
    var k := h + speech;
    forall i | 0 <= i < |k| ensures Lands(k[..i], k[i]) {
      if i < |h| {
        assert k[..i] == h[..i] && k[i] == h[i];
      } else {
        assert k[i] == speech[i - |h|];
      }
    }
  }

  lemma OrderlyLands(mode: A.Mode, chunks: seq<StreamChunk>)
    requires AO.Orderly(AO.BEGIN, chunks)
    ensures Landing(AY.RunActions(mode, A.INITIAL, chunks)) && Landing(AE.PartsOf(mode, A.INITIAL, chunks).before)
  {
    hide AO.Fits, AO.Orderly, Landing, AY.RunActions, AE.PartsOf, AY.Finished, AE.HasStart;
    AO.NothingFits();
    var h := AY.RunActions(mode, A.INITIAL, chunks);
    assert A.INITIAL.core == A.ActAll(A.EMPTY, []);
    OrderlyLandsFrom(mode, A.INITIAL, AO.BEGIN, [], chunks);
    assert [] + h == h;
    AE.RunIsParts(mode, A.INITIAL, chunks);
    LandingPrefix(AE.PartsOf(mode, A.INITIAL, chunks).before, h);
  }

  // ---- ResponsesStreamTranslator ----

  function View(call: R.Call): ToolCall {
    ToolCall(call.id, call.name, call.arguments)
  }

  /** The `toolCalls` slice, without what only concerns streaming. */
  function Views(calls: seq<R.Call>): seq<ToolCall> {
    seq(|calls|, i requires 0 <= i < |calls| => View(calls[i]))
  }

  function ActViews(calls: seq<ToolCall>, a: R.Action): seq<ToolCall> {
    match a
    case ToolStart(id, name) => Start(calls, id, name)
    case ToolArgs(text) => Append(calls, text)
    case _ => calls
  }

  lemma ActView(setup: R.Setup, c: R.Core, a: R.Action)
    ensures Views(R.Act(setup, c, a).calls) == ActViews(Views(c.calls), a)
  {
    match a {
      case ToolStart(id, name) =>
        assert Views(c.calls + [R.NewCall(setup, id, name)]) == Views(c.calls) + [ToolCall(id, name, "")];
      case ToolArgs(text) =>
        if c.calls != [] {
          var last := |c.calls| - 1;
          var call := R.AddFragment(setup, c.calls[last], text).0;
          assert Views(c.calls[last := call]) == Views(c.calls)[last := View(call)];
        }
      case _ =>
    }
  }

  predicate Toolless(h: seq<R.Action>) {
    forall i :: 0 <= i < |h| ==> !h[i].ToolStart? && !h[i].ToolArgs?
  }

  lemma {:induction false} SpeechViews(setup: R.Setup, c: R.Core, h: seq<R.Action>)
    requires Toolless(h)
    ensures Views(R.ActAll(setup, c, h).calls) == Views(c.calls)
    decreases |h|
  {
    hide Views, R.Act;
    if h != [] {
      SpeechViews(setup, c, h[..|h| - 1]);
      ActView(setup, R.ActAll(setup, c, h[..|h| - 1]), h[|h| - 1]);
    }
  }

  lemma {:induction false} SpeechIsToolless(out: seq<Normalizer.Emission>)
    ensures Toolless(R.SpeechActions(out))
  {
    if out != [] { SpeechIsToolless(out[1..]); }
  }

  lemma FragmentViews(setup: R.Setup, c: R.Core, f: ToolFragment)
    ensures Views(R.ActAll(setup, c, R.FragmentActions(f)).calls) == AddLatest(Views(c.calls), f)
  {
    hide Views, R.Act, R.ActAll, Start, Append;
    var (a, b) := (if f.id != "" then [R.ToolStart(f.id, f.name)] else [],
                   if f.arguments != "" then [R.ToolArgs(f.arguments)] else []);
    R.ActAppend(setup, c, a, b);
    var c1 := R.ActAll(setup, c, a);
    R.ActOne(setup, c);
    R.ActOne(setup, c1);
    ActView(setup, c, R.ToolStart(f.id, f.name));
    ActView(setup, c1, R.ToolArgs(f.arguments));
  }

  lemma {:induction false} FragmentsViews(setup: R.Setup, c: R.Core, fragments: seq<ToolFragment>)
    ensures Views(R.ActAll(setup, c, R.FragmentsActions(fragments)).calls) == Latest(Views(c.calls), fragments)
    decreases |fragments|
  {
    hide Views, AddLatest, R.FragmentActions, R.Act;
    if fragments != [] {
      var (f, later) := (fragments[0], fragments[1..]);
      var c1 := R.ActAll(setup, c, R.FragmentActions(f));
      R.ActAppend(setup, c, R.FragmentActions(f), R.FragmentsActions(later));
      FragmentViews(setup, c, f);
      FragmentsViews(setup, c1, later);
      assert fragments == [f] + later;
      LatestAppend(Views(c.calls), [f], later);
      LatestOne(Views(c.calls), f);
    }
  }

  lemma ToolViews(setup: R.Setup, c: R.Core, fragments: seq<ToolFragment>)
    ensures Views(R.ActAll(setup, c, R.ToolActions(fragments)).calls) == Latest(Views(c.calls), fragments)
  {
    hide Views, AddLatest, R.FragmentsActions, R.Act;
    if fragments != [] {
      R.ActAppend(setup, c, [R.ToolBegin], R.FragmentsActions(fragments));
      SpeechViews(setup, c, [R.ToolBegin]);
      FragmentsViews(setup, R.ActAll(setup, c, [R.ToolBegin]), fragments);
    }
  }

  lemma TalkViews(setup: R.Setup, c: R.Core, n: Normalizer.State, chunk: StreamChunk)
    requires n.parser.Valid() && chunk.choices != []
    ensures Views(R.ActAll(setup, c, RE.Talk(n, chunk)).calls) == Latest(Views(c.calls), chunk.choices[0].toolCalls)
  {
    hide Views, Latest, R.SpeechActions, R.ToolActions, R.ActAll, Normalizer.Deliver;
    var choice := chunk.choices[0];
    var out := Normalizer.Deliver(n, choice.content, choice.reasoning).1;
    var (first, speech, tools) := ([R.Start(chunk.model)], R.SpeechActions(out), R.ToolActions(choice.toolCalls));
    SpeechIsToolless(out);
    R.ActAppend(setup, c, first + speech, tools);
    SpeechViews(setup, c, first + speech);
    ToolViews(setup, R.ActAll(setup, c, first + speech), choice.toolCalls);
  }

  lemma ChunkViews(setup: R.Setup, c: R.Core, n: Normalizer.State, chunk: StreamChunk)
    requires n.parser.Valid() && chunk.choices != []
    ensures Views(R.ActAll(setup, c, R.ChunkActions(n, chunk)).calls) ==
      Latest(Views(c.calls), chunk.choices[0].toolCalls)
  {
    hide Views, Latest, RE.Talk, R.ChunkActions, R.ActAll, RS.Unfinished;
    TalkViews(setup, c, n, chunk);
    RE.TalkUnfinished(n, chunk);
    var last := [R.Finish(chunk.usage)];
    R.ActAppend(setup, c, RE.Talk(n, chunk), last);
    SpeechViews(setup, R.ActAll(setup, c, RE.Talk(n, chunk)), last);
  }

  lemma {:induction false} RunViews(setup: R.Setup, s: R.Translator, chunks: seq<StreamChunk>)
    requires s.normalizer.parser.Valid()
    ensures Views(RS.Chunked(setup, s, chunks).core.calls) == Latest(Views(s.core.calls), AllFragments(chunks))
    decreases chunks
  {
    hide Views, AddLatest, R.ChunkActions, R.ActAll, Keepalive, Normalizer.Deliver;
    if chunks != [] {
      var next := R.Process(setup, s, chunks[0]);
      RunViews(setup, next, chunks[1..]);
      if Bearing(chunks[0]) {
        ChunkViews(setup, s.core, s.normalizer, chunks[0]);
        LatestAppend(Views(s.core.calls), chunks[0].choices[0].toolCalls, AllFragments(chunks[1..]));
      } else {
        assert [] + AllFragments(chunks[1..]) == AllFragments(chunks[1..]);
      }
    }
  }

  /** For every run: the `toolCalls` slice at the end. */
  lemma ResponsesCalls(setup: R.Setup, chunks: seq<StreamChunk>)
    ensures Views(RS.Whole(setup, chunks).core.calls) == Latest([], AllFragments(chunks))
  {
    hide R.SpeechActions, R.ActAll, Normalizer.Close, Latest, RS.Chunked;
    var s := RS.Chunked(setup, R.INITIAL, chunks);
    RunViews(setup, R.INITIAL, chunks);
    SpeechIsToolless(Normalizer.Close(s.normalizer).1);
    SpeechViews(setup, s.core, R.FlushActions(s));
    assert Views(R.EMPTY.calls) == [];
  }

  /** The slice when the response is completed. */
  lemma {:induction false} BeforeViews(setup: R.Setup, s: R.Translator, c: R.Core, chunks: seq<StreamChunk>)
    requires s.normalizer.parser.Valid()
    ensures Views(R.ActAll(setup, c, RE.PartsOf(setup, s, chunks).before).calls) ==
      Latest(Views(c.calls), AllFragments(Upto(chunks)))
    decreases chunks
  {
    hide Views, AddLatest, RE.Talk, R.ActAll, R.SpeechActions, Keepalive, R.Process, Normalizer.Close;
    if chunks == [] {
      SpeechIsToolless(Normalizer.Close(s.normalizer).1);
      SpeechViews(setup, c, R.SpeechActions(Normalizer.Close(s.normalizer).1));
    } else {
      var (chunk, next, rest) := (chunks[0], R.Process(setup, s, chunks[0]), chunks[1..]);
      var tail := if Ends(chunk) then [] else Upto(rest);
      FragmentsCons(chunk, tail);
      if Bearing(chunk) {
        var own := chunk.choices[0].toolCalls;
        TalkViews(setup, c, s.normalizer, chunk);
        var c1 := R.ActAll(setup, c, RE.Talk(s.normalizer, chunk));
        R.ActAppend(setup, c, RE.Talk(s.normalizer, chunk), RE.PartsOf(setup, next, rest).before);
        BeforeViews(setup, next, c1, rest);
        LatestAppend(Views(c.calls), own, AllFragments(tail));
      } else {
        BeforeViews(setup, next, c, rest);
      }
    }
  }

  /** The output item of a call. */
  function ItemOf(setup: R.Setup, call: ToolCall): R.Item {
    if call.name in setup.customTools then R.CustomCall(call.id, call.name, setup.extract(call.arguments))
    else R.FunctionCall(call.id, call.name, call.arguments)
  }

  function ItemsOf(setup: R.Setup, calls: seq<ToolCall>): seq<R.Item> {
    seq(|calls|, i requires 0 <= i < |calls| => ItemOf(setup, calls[i]))
  }

  /** The tool calls in an output. */
  function ToolItems(output: seq<R.Item>): seq<R.Item> {
    if output == [] then []
    else ToolItems(output[..|output| - 1]) + if output[|output| - 1].Message? then [] else [output[|output| - 1]]
  }

  lemma {:induction false} FinalToolItems(setup: R.Setup, front: seq<R.Item>, calls: seq<R.Call>)
    requires |front| <= 1 && (front != [] ==> front[0].Message?)
    requires forall i :: 0 <= i < |calls| ==> calls[i].custom == (calls[i].name in setup.customTools)
    ensures ToolItems(front + R.FinalItems(setup, calls)) == ItemsOf(setup, Views(calls))
    decreases |calls|
  {
    hide ItemOf;
    if calls == [] {
      assert front + [] == front && front[..0] == [];
    } else {
      var n := |calls| - 1;
      var (init, last) := (calls[..n], R.FinalItem(setup, calls[n]));
      FinalToolItems(setup, front, init);
      var output := front + R.FinalItems(setup, init);
      assert front + R.FinalItems(setup, calls) == output + [last] && (output + [last])[..|output|] == output;
      assert ItemsOf(setup, Views(calls)) == ItemsOf(setup, Views(init)) + [last] by { LastItem(setup, calls); }
    }
  }

  lemma LastItem(setup: R.Setup, calls: seq<R.Call>)
    requires calls != [] && calls[|calls| - 1].custom == (calls[|calls| - 1].name in setup.customTools)
    ensures var n := |calls| - 1;
      ItemsOf(setup, Views(calls)) == ItemsOf(setup, Views(calls[..n])) + [R.FinalItem(setup, calls[n])]
  {
  }

  lemma StatesCustom(setup: R.Setup, calls: seq<RS.CallInput>)
    requires setup.Valid()
    ensures var states := RS.StatesOf(setup, calls);
      forall i :: 0 <= i < |states| ==> states[i].custom == (states[i].name in setup.customTools)
  {
    hide RS.Fold;
    forall i | 0 <= i < |calls|
      ensures RS.StateOf(setup, calls[i]).custom == (RS.StateOf(setup, calls[i]).name in setup.customTools)
    {
      RS.FoldFacts(setup, calls[i].id, calls[i].name, calls[i].fragments);
    }
  }

  /** The one response.completed of a trace. */
  predicate CompletedAt(t: seq<R.ResponseEvent>, p: nat) {
    p < |t| && t[p].Completed? && RS.CompletedIn(t) == 1
  }

  /** The output there. */
  function OutputAt(t: seq<R.ResponseEvent>, p: nat): seq<R.Item> {
    if p < |t| && t[p].Completed? then t[p].output else []
  }

  /** Main result, for every run: the completed response holds the calls that upstream sent up to and in the first
      chunk that finishes it, each with all its arguments. */
  lemma CallsAtCompletion(setup: R.Setup, chunks: seq<StreamChunk>)
    requires setup.Valid()
    ensures var t := RS.Whole(setup, chunks).core.trace;
      exists p: nat :: CompletedAt(t, p) &&
        ToolItems(OutputAt(t, p)) == ItemsOf(setup, Latest([], AllFragments(Upto(chunks))))
  {
    hide RS.CutAt, RS.Settles, RS.Snapshot, CompletedAt, RS.Whole, RS.FinishOf, RE.PartsOf, RS.RunActions, RS.StatesOf,
      RS.CallsOf, RS.TextOf, R.ActAll,
      R.FinalItems, Latest, ItemsOf, Views, ToolItems, RS.ToolsIn, RS.SaidIn, RS.AllSeen, RS.OutputFits, RS.Numbered,
      RS.DoneIn, RS.CompletedIn;
    var t := RS.Whole(setup, chunks).core.trace;
    RS.SnapshotTheorem(setup, chunks);
    var h := RS.RunActions(setup, R.INITIAL, chunks);
    var p: nat, g: seq<R.Action> :| RS.CutAt(h, g) && RS.Settles(h, g, t, p) && RS.Snapshot(t, p) &&
      RS.Explained(setup, t, p, g) && RS.FinishOf(setup, t, p, g);
    SnapshotCompletes(t, p);
    RE.BeforeIsCut(setup, chunks, g);
    RE.CallsTrack(setup, g);
    BeforeViews(setup, R.INITIAL, R.EMPTY, chunks);
    assert Views(R.EMPTY.calls) == [] by { NoViews(); }
    var states := RS.StatesOf(setup, RS.CallsOf(g));
    StatesCustom(setup, RS.CallsOf(g));
    FinalToolItems(setup, if RS.TextOf(g) == "" then [] else [R.Message(RS.TextOf(g))], states);
    assert CompletedAt(t, p);
  }

  lemma SnapshotCompletes(t: seq<R.ResponseEvent>, p: nat)
    requires RS.Snapshot(t, p)
    ensures CompletedAt(t, p)
  {
  }

  lemma NoViews()
    ensures Views([]) == []
  {
  }
}
