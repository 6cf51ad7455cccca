/** The events around the blocks: how a message of StreamTranslator starts, and with what it ends
    (translator/stream.go). */
module AnthropicEnvelope {
  import opened Chunks
  import opened Options
  import opened Normalizer
  import opened AnthropicStream
  import opened AnthropicTrace
  import opened AnthropicTyping
  import E = AnthropicEnding
  import ToolAgreement

  /** The finish of a run: that of the first chunk that finishes it, or the one the flush adds. */
  lemma {:induction false} FinishIs(mode: Mode, s: Translator, chunks: seq<StreamChunk>)
    requires s.normalizer.parser.Valid()
    ensures E.PartsOf(mode, s, chunks).finish ==
      match FirstEnd(chunks)
      case Some(c) => Finish(mode.mapReason(c.choices[0].finishReason.value), c.usage)
      case None => Finish("end_turn", if LastUsage(chunks).Some? then LastUsage(chunks) else s.lastUsage)
    decreases chunks
  {
    hide Keepalive, E.Talk, RunActions, ActAll, ChunkActions, Deliver, Close, SpeechActions;
    if chunks != [] {
      var (c, next, rest) := (chunks[0], Process(mode, s, chunks[0]), chunks[1..]);
      assert chunks == [c] + rest;
      LastUsageCons(c, rest);
      OneUsage(c);
      if !Ends(c) { FinishIs(mode, next, rest); }
    }
  }

  lemma OneUsage(c: StreamChunk)
    ensures LastUsage([c]) == if !Keepalive(c) && c.choices == [] && c.usage.Some? then c.usage else None
  {
    hide Keepalive;
    assert [c][..0] == [];
  }

  /** The first action of a run with a chunk that is acted on. */
  lemma {:induction false} StartIs(mode: Mode, s: Translator, chunks: seq<StreamChunk>)
    requires s.normalizer.parser.Valid() && FirstBearing(chunks).Some?
    ensures var (h, c) := (RunActions(mode, s, chunks), FirstBearing(chunks).value);
      h != [] && h[0] == Start(c.id, c.model)
    decreases chunks
  {
    hide Bearing, RunActions, ChunkActions;
    RunUnfold(mode, s, chunks);
    if Bearing(chunks[0]) {
      BearingStarts(mode, s.normalizer, chunks[0]);
    } else {
      StartIs(mode, Process(mode, s, chunks[0]), chunks[1..]);
    }
  }

  lemma RunUnfold(mode: Mode, s: Translator, chunks: seq<StreamChunk>)
    requires s.normalizer.parser.Valid() && chunks != []
    ensures var later := RunActions(mode, Process(mode, s, chunks[0]), chunks[1..]);
      if Bearing(chunks[0])
      then chunks[0].choices != [] && RunActions(mode, s, chunks) == ChunkActions(mode, s.normalizer, chunks[0]) + later
      else RunActions(mode, s, chunks) == later
  {
    hide Keepalive, ChunkActions, Process;
    var later := RunActions(mode, Process(mode, s, chunks[0]), chunks[1..]);
    assert [] + later == later;
  }

  lemma BearingStarts(mode: Mode, n: State, c: StreamChunk)
    requires n.parser.Valid() && c.choices != []
    ensures var h := ChunkActions(mode, n, c); h != [] && h[0] == Start(c.id, c.model)
  {
    hide SpeechActions, ToolActions, Deliver;
  }

  /** Main result, for every run: the message starts with the id and the model of the first chunk that is acted on,
      and ends with the finish reason and the usage of the first chunk that finishes it; if there is none, with
      "end_turn" and the usage of the last chunk that carried nothing else. */
  lemma Envelope(mode: Mode, chunks: seq<StreamChunk>)
    ensures var t := Whole(mode, chunks).core.trace;
      (FirstBearing(chunks).Some? ==>
         t != [] && t[0] == MessageStart(FirstBearing(chunks).value.id, FirstBearing(chunks).value.model)) &&
      exists p: nat :: EndsAt(t, p) && t[p] ==
        match FirstEnd(chunks)
        case Some(c) => MessageDelta(mode.mapReason(c.choices[0].finishReason.value), c.usage)
        case None => MessageDelta("end_turn", LastUsage(chunks))
  {
    hide Whole, RunActions, ActAll, E.PartsOf, EndsAt, FirstBearing, FirstEnd, LastUsage;
    var p := ToolAgreement.EndOfRun(mode, chunks);
    FinishIs(mode, INITIAL, chunks);
    E.WholeIsRun(mode, chunks);
    if FirstBearing(chunks).Some? {
      StartIs(mode, INITIAL, chunks);
      StartsWith(RunActions(mode, INITIAL, chunks));
    }
    assert EndsAt(Whole(mode, chunks).core.trace, p);
  }

  lemma StartsWith(h: seq<Action>)
    requires h != [] && h[0].Start?
    ensures var t := ActAll(EMPTY, h).trace; t != [] && t[0] == MessageStart(h[0].id, h[0].model)
  {
    hide ActAll;
    ActAppend(EMPTY, [h[0]], h[1..]);
    ActOne(EMPTY);
    assert h == [h[0]] + h[1..];
    ToolAgreement.TraceGrows(Act(EMPTY, h[0]), h[1..]);
  }
}
