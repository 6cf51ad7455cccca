/** How a Responses stream starts, and the usage it ends with (translator/responses_stream.go). */
module ResponsesEnvelope {
  import opened Chunks
  import opened Options
  import opened Normalizer
  import opened ResponsesStream
  import opened ResponsesSnapshot
  import E = ResponsesEnding
  import AnthropicEnvelope

  lemma {:induction false} FinishIs(setup: Setup, s: Translator, chunks: seq<StreamChunk>)
    requires s.normalizer.parser.Valid()
    ensures E.PartsOf(setup, s, chunks).finish ==
      match FirstEnd(chunks)
      case Some(c) => Finish(c.usage)
      case None => Finish(if LastUsage(chunks).Some? then LastUsage(chunks) else s.lastUsage)
    decreases chunks
  {
    hide Keepalive, E.Talk, RunActions, ActAll, ChunkActions, Deliver, Close, SpeechActions;
    if chunks != [] {
      var (c, next, rest) := (chunks[0], Process(setup, s, chunks[0]), chunks[1..]);
      assert chunks == [c] + rest;
      LastUsageCons(c, rest);
      AnthropicEnvelope.OneUsage(c);
      if !Ends(c) { FinishIs(setup, next, rest); }
    }
  }

  lemma {:induction false} StartIs(setup: Setup, s: Translator, chunks: seq<StreamChunk>)
    requires s.normalizer.parser.Valid() && FirstBearing(chunks).Some?
    ensures var h := RunActions(setup, s, chunks); h != [] && h[0] == Start(FirstBearing(chunks).value.model)
    decreases chunks
  {
    hide Bearing, RunActions, ChunkActions;
    RunUnfold(setup, s, chunks);
    if Bearing(chunks[0]) {
      BearingStarts(s.normalizer, chunks[0]);
    } else {
      StartIs(setup, Process(setup, s, chunks[0]), chunks[1..]);
    }
  }

  lemma RunUnfold(setup: Setup, s: Translator, chunks: seq<StreamChunk>)
    requires s.normalizer.parser.Valid() && chunks != []
    ensures var later := RunActions(setup, Process(setup, s, chunks[0]), chunks[1..]);
      if Bearing(chunks[0])
      then chunks[0].choices != [] && RunActions(setup, s, chunks) == ChunkActions(s.normalizer, chunks[0]) + later
      else RunActions(setup, s, chunks) == later
  {
    hide Keepalive, ChunkActions, Process;
    var later := RunActions(setup, Process(setup, s, chunks[0]), chunks[1..]);
    assert [] + later == later;
  }

  lemma BearingStarts(n: State, c: StreamChunk)
    requires n.parser.Valid() && c.choices != []
    ensures var h := ChunkActions(n, c); h != [] && h[0] == Start(c.model)
  {
    hide SpeechActions, ToolActions, Deliver;
  }

  lemma {:induction false} TraceGrows(setup: Setup, c: Core, h: seq<Action>)
    ensures c.trace <= ActAll(setup, c, h).trace
    decreases |h|
  {
    hide Act;
    if h != [] {
      TraceGrows(setup, c, h[..|h| - 1]);
      ActGrows(setup, ActAll(setup, c, h[..|h| - 1]), h[|h| - 1]);
    }
  }

  lemma ActGrows(setup: Setup, c: Core, a: Action)
    ensures c.trace <= Act(setup, c, a).trace
  {
    hide CloseCalls, BuildOutput, AddFragment, HandleTextCore, HandleReasoningCore, FinishCore;
    match a
    case Say(text) => SpeechGrows(c, text);
    case Think(text) => SpeechGrows(c, text);
    case Finish(usage) => FinishGrows(setup, c, usage);
    case _ =>
  }

  lemma SpeechGrows(c: Core, text: string)
    ensures c.trace <= HandleTextCore(c, text).trace && c.trace <= HandleReasoningCore(c, text).trace
  {
  }

  lemma FinishGrows(setup: Setup, c: Core, usage: Option<Usage>)
    ensures c.trace <= FinishCore(setup, c, usage).trace
  {
    hide CloseCalls, BuildOutput;
    assert c.trace <= StopReasoning(CloseText(c)).trace;
  }

  lemma StartsWith(setup: Setup, h: seq<Action>)
    requires h != [] && h[0].Start?
    ensures var t := ActAll(setup, EMPTY, h).trace; t != [] && t[0] == Created(h[0].model)
  {
    hide ActAll;
    ActAppend(setup, EMPTY, [h[0]], h[1..]);
    ActOne(setup, EMPTY);
    assert h == [h[0]] + h[1..];
    TraceGrows(setup, Act(setup, EMPTY, h[0]), h[1..]);
  }

  // ---- The model ----

  predicate NoStart(h: seq<Action>) {
    forall i :: 0 <= i < |h| ==> !h[i].Start?
  }

  lemma ModelStep(setup: Setup, c: Core, a: Action)
    ensures var d := Act(setup, c, a); (c.started || !a.Start? ==> d.model == c.model) && (c.started ==> d.started)
  {
    hide CloseCalls, BuildOutput, AddFragment;
  }

  /** Once set, or if nothing sets it, the model stays. */
  lemma {:induction false} ModelStays(setup: Setup, c: Core, h: seq<Action>)
    requires c.started || NoStart(h)
    ensures ActAll(setup, c, h).model == c.model && (c.started ==> ActAll(setup, c, h).started)
    decreases |h|
  {
    hide Act;
    if h != [] {
      ModelStays(setup, c, h[..|h| - 1]);
      ModelStep(setup, ActAll(setup, c, h[..|h| - 1]), h[|h| - 1]);
    }
  }

  lemma {:induction false} SpeechStartless(out: seq<Emission>)
    ensures NoStart(SpeechActions(out))
  {
    if out != [] { SpeechStartless(out[1..]); }
  }

  lemma {:induction false} NothingStarts(setup: Setup, s: Translator, chunks: seq<StreamChunk>)
    requires s.normalizer.parser.Valid() && FirstBearing(chunks).None?
    ensures NoStart(RunActions(setup, s, chunks))
    decreases chunks
  {
    if chunks == [] {
      hide Close, SpeechActions;
      SpeechStartless(Close(s.normalizer).1);
    } else {
      hide Bearing, RunActions, ChunkActions, Process;
      RunUnfold(setup, s, chunks);
      NothingStarts(setup, Process(setup, s, chunks[0]), chunks[1..]);
    }
  }

  lemma ModelAt(setup: Setup, h: seq<Action>, g: seq<Action>, t: seq<ResponseEvent>, p: nat)
    requires CutAt(h, g) && FinishOf(setup, t, p, g)
    ensures h[0].Start? ==> t[p].model == h[0].model
    ensures NoStart(h) ==> t[p].model == ""
  {
    hide ActAll, CloseCalls, BuildOutput, Unfinished;
    var c := ActAll(setup, EMPTY, g);
    var u := FinishCore(setup, c, t[p].usage).trace;
    assert u == t[..p + 1] && u[|u| - 1].model == c.model && u[p] == t[p];
    if h[0].Start? {
      assert g[0] == h[0] && g == [h[0]] + g[1..];
      ActAppend(setup, EMPTY, [h[0]], g[1..]);
      ActOne(setup, EMPTY);
      ModelStays(setup, Act(setup, EMPTY, h[0]), g[1..]);
    }
    if NoStart(h) {
      assert forall i :: 0 <= i < |g| ==> g[i] == h[i];
      ModelStays(setup, EMPTY, g);
    }
  }

  /** Main result, for every run: the response is created with the model of the first chunk that is acted on, and
      completed, once, with the same model, and with the usage of the first chunk that finishes it, or else of the last
      one that carried nothing but usage. */
  lemma Envelope(setup: Setup, chunks: seq<StreamChunk>)
    requires setup.Valid()
    ensures var t := Whole(setup, chunks).core.trace;
      (FirstBearing(chunks).Some? ==> t != [] && t[0] == Created(FirstBearing(chunks).value.model)) &&
      CompletedIn(t) == 1 &&
      exists p: nat :: p < |t| && t[p].Completed? &&
        t[p].model == (if FirstBearing(chunks).Some? then FirstBearing(chunks).value.model else "") &&
        t[p].usage == match FirstEnd(chunks) case Some(c) => c.usage case None => LastUsage(chunks)
  {
    hide RunActions, ActAll, E.PartsOf, CutAt, Chunked, Explained, FinishOf, OutputFits, SaidIn, ToolsIn, DoneIn,
      CompletedIn, FirstBearing, FirstEnd, LastUsage, Unfinished, NoStart;
    var h := RunActions(setup, INITIAL, chunks);
    var t := Whole(setup, chunks).core.trace;
    SnapshotTheorem(setup, chunks);
    var p: nat, g: seq<Action> :| CutAt(h, g) && Settles(h, g, t, p) && Snapshot(t, p) && Explained(setup, t, p, g) &&
      FinishOf(setup, t, p, g);
    E.BeforeIsCut(setup, chunks, g);
    E.RunIsParts(setup, INITIAL, chunks);
    FinishIs(setup, INITIAL, chunks);
    var parts := E.PartsOf(setup, INITIAL, chunks);
    assert h[|g|] == parts.finish;
    RunIsActions(setup, INITIAL, chunks);
    if FirstBearing(chunks).Some? {
      StartIs(setup, INITIAL, chunks);
      StartsWith(setup, h);
    } else {
      NothingStarts(setup, INITIAL, chunks);
    }
    ModelAt(setup, h, g, t, p);
  }
}
