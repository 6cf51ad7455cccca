/** The event traces of StreamTranslator, for every input. */
module AnthropicTrace {
  import opened Strings
  import opened Chunks
  import opened Options
  import opened Normalizer
  import opened AnthropicStream

  datatype Tag = Opening | Closing | Greeting | Summary | Ending

  predicate Is(e: SseEvent, tag: Tag) {
    match tag
    case Opening => e.BlockStart?
    case Closing => e.BlockStop?
    case Greeting => e.MessageStart?
    case Summary => e.MessageDelta?
    case Ending => e.MessageStop?
  }

  function Count(t: seq<SseEvent>, tag: Tag): nat {
    if t == [] then 0 else Count(t[..|t| - 1], tag) + (if Is(t[|t| - 1], tag) then 1 else 0)
  }

  /** `e` comes in turn after `t`: a block starts when none is open and stops when one is, both with the next index
      in the sequence 0, 1, 2, ...; a delta carries the index of the open block, or of the next one if none is open. */
  predicate InTurn(t: seq<SseEvent>, e: SseEvent) {
    match e
    case BlockStart(i, _) => Count(t, Opening) == Count(t, Closing) == i
    case BlockStop(i) => Count(t, Opening) == i + 1 && Count(t, Closing) == i
    case BlockDelta(i, _) => Count(t, Closing) == i
    case _ => true
  }

  predicate WellBracketed(t: seq<SseEvent>) {
    forall k :: 0 <= k < |t| ==> InTurn(t[..k], t[k])
  }

  /** At `p` the message ends: message_delta, then at once message_stop, with every block before them stopped. */
  predicate EndsAt(t: seq<SseEvent>, p: nat) {
    p + 1 < |t| && t[p].MessageDelta? && t[p + 1].MessageStop? && Count(t[..p], Opening) == Count(t[..p], Closing)
  }

  ghost predicate Shape(c: Core) {
    WellBracketed(c.trace) &&
    Count(c.trace, Closing) == c.blockIndex &&
    Count(c.trace, Opening) == c.blockIndex + (if c.blockOpen then 1 else 0) &&
    Count(c.trace, Summary) == Count(c.trace, Ending) == (if c.finished then 1 else 0) &&
    (c.finished ==> exists p :: EndsAt(c.trace, p)) &&
    Count(c.trace, Greeting) == (if c.started then 1 else 0) &&
    (c.started ==> c.trace != [] && c.trace[0].MessageStart?)
  }

  lemma CountSnoc(t: seq<SseEvent>, e: SseEvent, tag: Tag)
    ensures Count(t + [e], tag) == Count(t, tag) + (if Is(e, tag) then 1 else 0)
  {
    assert (t + [e])[..|t|] == t;
  }

  lemma BracketSnoc(t: seq<SseEvent>, e: SseEvent)
    requires WellBracketed(t) && InTurn(t, e)
    ensures WellBracketed(t + [e])
  {
    hide InTurn;
    forall k | 0 <= k < |t + [e]| ensures InTurn((t + [e])[..k], (t + [e])[k]) {
      if k < |t| {
        assert (t + [e])[..k] == t[..k];
      } else {
        assert (t + [e])[..k] == t;
      }
    }
  }

  lemma EndsSnoc(t: seq<SseEvent>, e: SseEvent, p: nat)
    requires EndsAt(t, p)
    ensures EndsAt(t + [e], p)
  {
    assert (t + [e])[..p] == t[..p];
  }

  /** Emitting one event in turn. */
  lemma EmitShape(c: Core, e: SseEvent, d: Core)
    requires Shape(c) && InTurn(c.trace, e) && d.trace == c.trace + [e]
    requires !e.MessageStart? && !e.MessageDelta? && !e.MessageStop?
    requires d.started == c.started && d.finished == c.finished
    requires d.blockIndex == c.blockIndex + (if e.BlockStop? then 1 else 0)
    requires d.blockOpen == if e.BlockStart? then true else if e.BlockStop? then false else c.blockOpen
    ensures Shape(d)
  {
    hide WellBracketed, Count, EndsAt;
    BracketSnoc(c.trace, e);
    CountSnoc(c.trace, e, Opening);
    CountSnoc(c.trace, e, Closing);
    CountSnoc(c.trace, e, Greeting);
    CountSnoc(c.trace, e, Summary);
    CountSnoc(c.trace, e, Ending);
    if c.finished {
      var p :| EndsAt(c.trace, p);
      EndsSnoc(c.trace, e, p);
    }
  }

  lemma CloseShape(c: Core)
    requires Shape(c)
    ensures Shape(c.CloseOpen()) && !c.CloseOpen().blockOpen
  {
    hide WellBracketed, Count, EndsAt;
    if c.blockOpen {
      EmitShape(c, BlockStop(c.blockIndex), c.CloseBlock());
    }
  }

  lemma OpenShape(c: Core, kind: Kind)
    requires Shape(c) && !c.blockOpen
    ensures Shape(c.Open(kind)) && c.Open(kind).blockOpen
  {
    hide WellBracketed, Count, EndsAt;
    EmitShape(c, BlockStart(c.blockIndex, kind), c.Open(kind));
  }

  lemma PutShape(c: Core, part: Part)
    requires Shape(c)
    ensures Shape(c.Put(part))
  {
    hide WellBracketed, Count, EndsAt;
    EmitShape(c, BlockDelta(c.blockIndex, part), c.Put(part));
  }

  lemma FlagShape(c: Core, inThinking: bool)
    requires Shape(c)
    ensures Shape(c.(inThinking := inThinking))
  {
    hide WellBracketed, Count, EndsAt;
  }

  lemma StartShape(c: Core, id: string, model: string)
    requires Shape(c) && !c.started && c.trace == []
    ensures Shape(Act(c, Start(id, model)))
  {
    hide WellBracketed, Count, EndsAt;
    var e := MessageStart(id, model);
    BracketSnoc(c.trace, e);
    CountSnoc(c.trace, e, Opening);
    CountSnoc(c.trace, e, Closing);
    CountSnoc(c.trace, e, Greeting);
    CountSnoc(c.trace, e, Summary);
    CountSnoc(c.trace, e, Ending);
    if c.finished {
      var p :| EndsAt(c.trace, p);
      EndsSnoc(c.trace, e, p);
    }
  }

  lemma FinishShape(c: Core, reason: string, usage: Option<Usage>)
    requires Shape(c) && !c.finished
    ensures Shape(Act(c, Finish(reason, usage))) && Act(c, Finish(reason, usage)).finished
  {
    hide WellBracketed, Count;
    CloseShape(c);
    var t := c.CloseOpen().trace;
    var e, stop := MessageDelta(reason, usage), MessageStop;
    var u := t + [e];
    BracketSnoc(t, e);
    BracketSnoc(u, stop);
    FinishCounts(t, e);
    var done := Act(c, Finish(reason, usage)).trace;
    assert done == u + [stop];
    assert done[..|t|] == t && done[|t|] == e && done[|t| + 1] == stop;
    assert EndsAt(done, |t|);
  }

  lemma FinishCounts(t: seq<SseEvent>, e: SseEvent)
    requires e.MessageDelta?
    ensures forall tag ::
      Count(t + [e] + [MessageStop], tag) == Count(t, tag) + (if tag in {Summary, Ending} then 1 else 0)
  {
    hide Count;
    forall tag
      ensures Count(t + [e] + [MessageStop], tag) == Count(t, tag) + (if tag in {Summary, Ending} then 1 else 0)
    {
      CountSnoc(t, e, tag);
      CountSnoc(t + [e], MessageStop, tag);
    }
  }

  lemma ActShape(c: Core, a: Action)
    requires Shape(c) && (a.Start? ==> c.started || c.trace == [])
    ensures Shape(Act(c, a)) && Act(c, a).started == (c.started || a.Start?)
    ensures Act(c, a).finished == (c.finished || a.Finish?)
  {
    hide Shape;
    match a {
      case Start(id, model) => if !c.started { StartShape(c, id, model); }
      case Say(text) =>
        CloseShape(c);
        var c1 := if c.inThinking then c.CloseOpen().(inThinking := false) else c;
        FlagShape(c.CloseOpen(), false);
        if !c1.blockOpen { OpenShape(c1, TextBlock); }
        PutShape(if c1.blockOpen then c1 else c1.Open(TextBlock), TextDelta(text));
      case Think(text) =>
        CloseShape(c);
        OpenShape(c.CloseOpen(), ThinkingBlock);
        FlagShape(c.CloseOpen().Open(ThinkingBlock), true);
        PutShape(if c.inThinking then c else c.CloseOpen().Open(ThinkingBlock).(inThinking := true),
                 ThinkingDelta(text));
      case ToolStart(id, name) =>
        CloseShape(c);
        OpenShape(c.CloseOpen(), ToolBlock(id, name));
      case ToolArgs(text) => PutShape(c, JsonDelta(text));
      case Finish(reason, usage) => if !c.finished { FinishShape(c, reason, usage); }
    }
  }

  lemma {:induction false} StartedShape(c: Core, actions: seq<Action>)
    requires Shape(c) && c.started
    ensures Shape(ActAll(c, actions)) && ActAll(c, actions).started
    ensures ActAll(c, actions).finished == (c.finished || exists i :: 0 <= i < |actions| && actions[i].Finish?)
    decreases |actions|
  {
    hide Shape, Act;
    if actions != [] {
      var n := |actions| - 1;
      StartedShape(c, actions[..n]);
      ActShape(ActAll(c, actions[..n]), actions[n]);
      assert forall i :: 0 <= i < n ==> actions[..n][i] == actions[i];
      if i :| 0 <= i < |actions| && actions[i].Finish? && i < n {
        assert actions[..n][i].Finish?;
      }
    }
  }

  // ---- Whole runs ----

  function Chunked(mode: Mode, s: Translator, chunks: seq<StreamChunk>): (r: Translator)
    requires s.normalizer.parser.Valid()
    ensures r.normalizer.parser.Valid()
    decreases chunks
  {
    if chunks == [] then s else Chunked(mode, Process(mode, s, chunks[0]), chunks[1..])
  }

  /** A run: all chunks, then Flush. */
  function Whole(mode: Mode, chunks: seq<StreamChunk>): Translator {
    Flushed(mode, Chunked(mode, INITIAL, chunks))
  }

  /** Between chunks: as long as no chunk with choices has come, nothing has happened but usage being noted. */
  ghost predicate Inv(s: Translator) {
    s.normalizer.parser.Valid() && Shape(s.core) &&
    (!s.core.started ==> s.core == EMPTY && s.normalizer == INITIAL.normalizer)
  }

  lemma ProcessKeeps(mode: Mode, s: Translator, c: StreamChunk)
    requires Inv(s)
    ensures Inv(Process(mode, s, c))
    ensures Process(mode, s, c).core.started == (s.core.started || Bearing(c))
  {
    hide Shape, Act, ActAll, SpeechActions, ToolActions, Deliver, Keepalive;
    if Bearing(c) {
      var actions := ChunkActions(mode, s.normalizer, c);
      var (first, rest) := (actions[..1], actions[1..]);
      assert first == [Start(c.id, c.model)] && actions == first + rest;
      ActAppend(s.core, first, rest);
      ActOne(s.core);
      ActShape(s.core, Start(c.id, c.model));
      StartedShape(Act(s.core, Start(c.id, c.model)), rest);
    }
  }

  lemma {:induction false} ChunkedKeeps(mode: Mode, s: Translator, chunks: seq<StreamChunk>)
    requires Inv(s)
    ensures Inv(Chunked(mode, s, chunks))
    ensures Chunked(mode, s, chunks).core.started ==
      (s.core.started || exists i :: 0 <= i < |chunks| && Bearing(chunks[i]))
    decreases chunks
  {
    hide Inv, Process, Bearing;
    if chunks != [] {
      InvValid(s);
      ProcessKeeps(mode, s, chunks[0]);
      ChunkedKeeps(mode, Process(mode, s, chunks[0]), chunks[1..]);
      if i :| 0 <= i < |chunks[1..]| && Bearing(chunks[1..][i]) {
        assert Bearing(chunks[i + 1]);
      }
      if i :| 0 <= i < |chunks| && Bearing(chunks[i]) && i > 0 {
        assert Bearing(chunks[1..][i - 1]);
      }
    }
  }

  lemma InvValid(s: Translator)
    requires Inv(s)
    ensures s.normalizer.parser.Valid()
  {
  }

  lemma EmptyShape()
    ensures Shape(EMPTY)
  {
  }

  /** Main result, for every input: one message_delta, one message_stop right behind it, every block started before
      them stopped before them; block starts and stops alternate with indices 0, 1, 2, ...; and message_start comes
      first, once, unless no chunk with choices came, when the trace is the two closing events alone. */
  lemma TraceShape(mode: Mode, chunks: seq<StreamChunk>)
    ensures var t := Whole(mode, chunks).core.trace;
      WellBracketed(t) && Count(t, Summary) == 1 && Count(t, Ending) == 1 && (exists p :: EndsAt(t, p)) &&
      if exists i :: 0 <= i < |chunks| && Bearing(chunks[i])
      then t != [] && t[0].MessageStart? && Count(t, Greeting) == 1
      else t == [MessageDelta("end_turn", Chunked(mode, INITIAL, chunks).lastUsage), MessageStop]
  {
    hide WellBracketed, Count, EndsAt, Chunked, Bearing, Act, SpeechActions;
    EmptyShape();
    ChunkedKeeps(mode, INITIAL, chunks);
    var s := Chunked(mode, INITIAL, chunks);
    var (speech, end) := (SpeechActions(Close(s.normalizer).1, mode.skipThinking), Finish("end_turn", s.lastUsage));
    ActSnoc(s.core, speech, end);
    if s.core.started {
      StartedShape(s.core, speech);
      ActShape(ActAll(s.core, speech), end);
    } else {
      SilentFlush(mode, s);
      ActShape(EMPTY, end);
    }
  }

  lemma SilentFlush(mode: Mode, s: Translator)
    requires s.normalizer == INITIAL.normalizer && s.core == EMPTY
    ensures ActAll(s.core, SpeechActions(Close(s.normalizer).1, mode.skipThinking)) == EMPTY
    ensures Act(EMPTY, Finish("end_turn", s.lastUsage)).trace == [MessageDelta("end_turn", s.lastUsage), MessageStop]
  {
    assert Close(s.normalizer).1 == [];
  }
}
