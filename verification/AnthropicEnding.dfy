/** When message_stop is the last event that a client of StreamTranslator gets (translator/stream.go). */
module AnthropicEnding {
  import opened Tags
  import opened Chunks
  import opened Options
  import opened Normalizer
  import opened StreamGuarantees
  import opened AnthropicStream
  import opened AnthropicTrace
  import opened AnthropicTyping
  import AnthropicContent
  import AO = AnthropicOrder

  // ---- A run, cut at its first finish ----

  datatype Parts = Parts(before: seq<Action>, finish: Action, after: seq<Action>)

  /** The actions of a run: before the first finish, the finish, behind it. */
  function PartsOf(mode: Mode, s: Translator, chunks: seq<StreamChunk>): Parts
    requires s.normalizer.parser.Valid()
    decreases chunks
  {
    if chunks == [] then
      Parts(SpeechActions(Close(s.normalizer).1, mode.skipThinking), Finish("end_turn", s.lastUsage), [])
    else
      var (c, next) := (chunks[0], Process(mode, s, chunks[0]));
      if !Bearing(c) then PartsOf(mode, next, chunks[1..])
      else if Ends(c) then
        Parts(Talk(mode, s.normalizer, c), Finish(mode.mapReason(c.choices[0].finishReason.value), c.usage),
              RunActions(mode, next, chunks[1..]))
      else
        var p := PartsOf(mode, next, chunks[1..]);
        p.(before := Talk(mode, s.normalizer, c) + p.before)
  }

  /** The actions of one chunk without its finish. */
  function Talk(mode: Mode, n: State, c: StreamChunk): seq<Action>
    requires n.parser.Valid() && c.choices != []
  {
    [Start(c.id, c.model)]
    + SpeechActions(Deliver(n, c.choices[0].content, c.choices[0].reasoning).1, mode.skipThinking)
    + ToolActions(c.choices[0].toolCalls)
  }

  lemma {:induction false} NoFinishInSpeech(out: seq<Emission>, skipThinking: bool)
    ensures !Finished(SpeechActions(out, skipThinking))
  {
    if out != [] {
      NoFinishInSpeech(out[1..], skipThinking);
      FinishedAppend(EmissionActions(out[0], skipThinking), SpeechActions(out[1..], skipThinking));
    }
  }

  lemma {:induction false} NoFinishInTools(fragments: seq<ToolFragment>)
    ensures !Finished(ToolActions(fragments))
  {
    if fragments != [] {
      NoFinishInTools(fragments[1..]);
      FinishedAppend(FragmentActions(fragments[0]), ToolActions(fragments[1..]));
    }
  }

  lemma FinishedAppend(a: seq<Action>, b: seq<Action>)
    ensures Finished(a + b) <==> Finished(a) || Finished(b)
  {
    assert forall i :: 0 <= i < |a| ==> (a + b)[i] == a[i];
    assert forall i :: 0 <= i < |b| ==> (a + b)[|a| + i] == b[i];
  }

  lemma NoFinishInTalk(mode: Mode, n: State, c: StreamChunk)
    requires n.parser.Valid() && c.choices != []
    ensures !Finished(Talk(mode, n, c)) && Talk(mode, n, c) != [] && Talk(mode, n, c)[0].Start?
  {
    hide Finished, SpeechActions, ToolActions, Deliver;
    var out := Deliver(n, c.choices[0].content, c.choices[0].reasoning).1;
    var first := [Start(c.id, c.model)];
    NoFinishInSpeech(out, mode.skipThinking);
    NoFinishInTools(c.choices[0].toolCalls);
    assert !Finished(first) by { StartOnly(c.id, c.model); }
    FinishedAppend(first, SpeechActions(out, mode.skipThinking));
    FinishedAppend(first + SpeechActions(out, mode.skipThinking), ToolActions(c.choices[0].toolCalls));
  }

  lemma StartOnly(id: string, model: string)
    ensures !Finished([Start(id, model)])
  {
  }

  predicate HasStart(h: seq<Action>) {
    exists i :: 0 <= i < |h| && h[i].Start?
  }

  /** The first finish of `h` is `p.finish`. */
  ghost predicate CutAt(h: seq<Action>, p: Parts) {
    h == p.before + [p.finish] + p.after && p.finish.Finish? && !Finished(p.before) &&
    (p.after != [] ==> HasStart(p.before))
  }

  lemma CutLater(talk: seq<Action>, h: seq<Action>, p: Parts)
    requires CutAt(h, p) && !Finished(talk) && talk != [] && talk[0].Start?
    ensures CutAt(talk + h, p.(before := talk + p.before))
  {
    hide Finished, HasStart;
    FinishedAppend(talk, p.before);
    StartThere(talk + p.before, 0);
    assert talk + (p.before + [p.finish] + p.after) == talk + p.before + [p.finish] + p.after;
  }

  lemma CutHere(talk: seq<Action>, f: Action, after: seq<Action>)
    requires !Finished(talk) && f.Finish? && (after != [] ==> talk != [] && talk[0].Start?)
    ensures CutAt(talk + [f] + after, Parts(talk, f, after))
  {
    hide Finished, HasStart;
    if after != [] { StartThere(talk, 0); }
  }

  lemma {:induction false} RunIsParts(mode: Mode, s: Translator, chunks: seq<StreamChunk>)
    requires s.normalizer.parser.Valid()
    ensures CutAt(RunActions(mode, s, chunks), PartsOf(mode, s, chunks))
    decreases chunks
  {
    hide CutAt, Finished, Talk, SpeechActions, Deliver, Keepalive, Process, Close, ChunkActions;
    if chunks == [] {
      NoFinishInSpeech(Close(s.normalizer).1, mode.skipThinking);
      var p := PartsOf(mode, s, []);
      CutHere(p.before, p.finish, []);
      assert p.before + [p.finish] + [] == p.before + [p.finish];
    } else {
      var (c, next) := (chunks[0], Process(mode, s, chunks[0]));
      if !Bearing(c) {
        RunIsParts(mode, next, chunks[1..]);
        assert [] + RunActions(mode, next, chunks[1..]) == RunActions(mode, next, chunks[1..]);
      } else {
        NoFinishInTalk(mode, s.normalizer, c);
        TalkIs(mode, s.normalizer, c);
        if Ends(c) {
          var p := PartsOf(mode, s, chunks);
          CutHere(p.before, p.finish, p.after);
        } else {
          RunIsParts(mode, next, chunks[1..]);
          CutLater(Talk(mode, s.normalizer, c), RunActions(mode, next, chunks[1..]), PartsOf(mode, next, chunks[1..]));
        }
      }
    }
  }

  lemma StartThere(h: seq<Action>, i: nat)
    requires i < |h| && h[i].Start?
    ensures HasStart(h)
  {
  }

  lemma TalkIs(mode: Mode, n: State, c: StreamChunk)
    requires n.parser.Valid() && c.choices != []
    ensures ChunkActions(mode, n, c) ==
      if c.choices[0].finishReason.Some?
      then Talk(mode, n, c) + [Finish(mode.mapReason(c.choices[0].finishReason.value), c.usage)] else Talk(mode, n, c)
  {
    hide SpeechActions, ToolActions, Deliver;
    assert Talk(mode, n, c) + [] == Talk(mode, n, c);
  }

  // ---- The closing events, and what comes behind them ----

  /** The state of any history: has the message been started, has it been finished? */
  lemma {:induction false} Flags(h: seq<Action>)
    ensures var c := ActAll(EMPTY, h);
      c.finished == Finished(h) && c.started == HasStart(h) && c.inThinking == Thinking(h)
    decreases |h|
  {
    if h != [] {
      var n := |h| - 1;
      Flags(h[..n]);
      assert h == h[..n] + [h[n]];
      SnocFacts(h[..n], h[n]);
      StartSnoc(h[..n], h[n]);
    }
  }

  lemma StartSnoc(h: seq<Action>, a: Action)
    ensures HasStart(h + [a]) <==> HasStart(h) || a.Start?
  {
    assert (h + [a])[|h|] == a && forall i :: 0 <= i < |h| ==> (h + [a])[i] == h[i];
  }

  predicate StopLast(t: seq<SseEvent>) {
    t != [] && t[|t| - 1].MessageStop?
  }

  /** An action that sends something even after the end. */
  predicate Emits(a: Action) {
    a.Say? || a.Think? || a.ToolStart? || a.ToolArgs?
  }

  predicate Silent(h: seq<Action>) {
    forall i :: 0 <= i < |h| ==> !Emits(h[i])
  }

  lemma StepBehind(c: Core, a: Action)
    requires c.finished && c.started
    ensures Act(c, a).finished && Act(c, a).started
    ensures StopLast(Act(c, a).trace) <==> StopLast(c.trace) && !Emits(a)
  {
  }

  lemma {:induction false} BehindStop(c: Core, h: seq<Action>)
    requires c.finished && (c.started || h == [])
    ensures ActAll(c, h).finished && (c.started ==> ActAll(c, h).started)
    ensures StopLast(ActAll(c, h).trace) <==> StopLast(c.trace) && Silent(h)
    decreases |h|
  {
    hide Act, StopLast, Emits;
    if h != [] {
      var n := |h| - 1;
      BehindStop(c, h[..n]);
      StepBehind(ActAll(c, h[..n]), h[n]);
      assert Silent(h) <==> Silent(h[..n]) && !Emits(h[n]);
    }
  }

  /** The trace up to the finish, and the two closing events. */
  lemma FinishEnds(g: seq<Action>, f: Action)
    requires !Finished(g) && f.Finish?
    ensures var (c, d) := (ActAll(EMPTY, g), ActAll(EMPTY, g + [f]));
      d.finished && d.started == c.started &&
      d.trace == c.CloseOpen().trace + [MessageDelta(f.reason, f.usage)] + [MessageStop]
  {
    hide ActAll;
    Flags(g);
    ActSnoc(EMPTY, g, f);
  }

  /** Main result, exact, for every run: message_stop is the last event if and only if, behind the first finish,
      nothing is said and no tool call is started or continued, the final flush included. */
  lemma StopLastIff(mode: Mode, chunks: seq<StreamChunk>)
    ensures StopLast(Whole(mode, chunks).core.trace) <==> Silent(PartsOf(mode, INITIAL, chunks).after)
  {
    hide ActAll, RunActions, Finished, HasStart, Silent, PartsOf, Whole;
    var p := PartsOf(mode, INITIAL, chunks);
    RunIsParts(mode, INITIAL, chunks);
    WholeIsRun(mode, chunks);
    FinishEnds(p.before, p.finish);
    Flags(p.before);
    ActAppend(EMPTY, p.before + [p.finish], p.after);
    BehindStop(ActAll(EMPTY, p.before + [p.finish]), p.after);
  }

  lemma WholeIsRun(mode: Mode, chunks: seq<StreamChunk>)
    ensures Whole(mode, chunks).core == ActAll(EMPTY, RunActions(mode, INITIAL, chunks))
  {
    hide ActAll, RunActions, Chunked;
    RunIsActions(mode, INITIAL, chunks);
  }

  // ---- On the chunks ----

  lemma SilentAppend(a: seq<Action>, b: seq<Action>)
    ensures Silent(a + b) <==> Silent(a) && Silent(b)
  {
    hide Emits;
    assert forall i :: 0 <= i < |a| ==> (a + b)[i] == a[i];
    assert forall i :: 0 <= i < |b| ==> (a + b)[|a| + i] == b[i];
  }

  lemma {:induction false} SilentSpeech(out: seq<Emission>, skipThinking: bool)
    ensures Silent(SpeechActions(out, skipThinking)) <==> SpeechActions(out, skipThinking) == []
    ensures forall i :: 0 <= i < |SpeechActions(out, skipThinking)| ==> Emits(SpeechActions(out, skipThinking)[i])
  {
    if out != [] { SilentSpeech(out[1..], skipThinking); }
    var h := SpeechActions(out, skipThinking);
    assert h != [] ==> Emits(h[0]);
  }

  lemma {:induction false} SpeechAppend(a: seq<Emission>, b: seq<Emission>, skipThinking: bool)
    ensures SpeechActions(a + b, skipThinking) == SpeechActions(a, skipThinking) + SpeechActions(b, skipThinking)
  {
    if a == [] {
      assert a + b == b;
    } else {
      assert (a + b)[1..] == a[1..] + b;
      SpeechAppend(a[1..], b, skipThinking);
    }
  }

  lemma {:induction false} SilentTools(fragments: seq<ToolFragment>)
    ensures Silent(ToolActions(fragments)) <==> NoTools(fragments)
  {
    if fragments != [] {
      var f := fragments[0];
      SilentTools(fragments[1..]);
      SilentAppend(FragmentActions(f), ToolActions(fragments[1..]));
      assert Silent(FragmentActions(f)) <==> f.id == "" && f.arguments == "" by { SilentFragment(f); }
      NoToolsAppend([f], fragments[1..]);
      assert fragments == [f] + fragments[1..];
    }
  }

  lemma SilentFragment(f: ToolFragment)
    ensures Silent(FragmentActions(f)) <==> f.id == "" && f.arguments == ""
  {
    var h := FragmentActions(f);
    if f.id != "" { assert Emits(h[0]); }
    if f.arguments != "" { assert Emits(h[|h| - 1]); }
  }

  lemma SilentChunk(mode: Mode, n: State, c: StreamChunk)
    requires n.parser.Valid() && c.choices != []
    ensures Silent(ChunkActions(mode, n, c)) <==>
      SpeechActions(Deliver(n, c.choices[0].content, c.choices[0].reasoning).1, mode.skipThinking) == [] &&
      NoTools(c.choices[0].toolCalls)
  {
    hide SpeechActions, ToolActions, Deliver, Silent, NoTools;
    var choice := c.choices[0];
    var out := Deliver(n, choice.content, choice.reasoning).1;
    var (first, speech, tools) :=
      ([Start(c.id, c.model)], SpeechActions(out, mode.skipThinking), ToolActions(choice.toolCalls));
    var last := if choice.finishReason.Some? then [Finish(mode.mapReason(choice.finishReason.value), c.usage)] else [];
    SilentEnds(c.id, c.model, last);
    SilentAppend(first, speech);
    SilentAppend(first + speech, tools);
    SilentAppend(first + speech + tools, last);
    SilentSpeech(out, mode.skipThinking);
    SilentTools(choice.toolCalls);
  }

  lemma SilentEnds(id: string, model: string, last: seq<Action>)
    requires forall i :: 0 <= i < |last| ==> last[i].Finish?
    ensures Silent([Start(id, model)]) && Silent(last)
  {
  }

  /** Nothing behind: what the normaliser yields is empty or not wanted, no tools come, and no block is unfinished. */
  predicate Quiet(mode: Mode, n: State, chunks: seq<StreamChunk>)
    requires n.parser.Valid()
  {
    var (n1, out) := Run(n, AnthropicContent.Inputs(chunks));
    SpeechActions(out, mode.skipThinking) == [] && NoTools(AllFragments(chunks)) && !AO.Pending(n1, mode.skipThinking)
  }

  lemma {:induction false} SilentRun(mode: Mode, s: Translator, chunks: seq<StreamChunk>)
    requires s.normalizer.parser.Valid()
    ensures Silent(RunActions(mode, s, chunks)) <==> Quiet(mode, s.normalizer, chunks)
    decreases chunks
  {
    hide Silent, NoTools, SpeechActions, ChunkActions, Deliver, Keepalive, Close, AO.Pending, ActAll;
    if chunks == [] {
      var speech := SpeechActions(Close(s.normalizer).1, mode.skipThinking);
      AO.FlushSpeech(s.normalizer, mode.skipThinking);
      SilentSpeech(Close(s.normalizer).1, mode.skipThinking);
      SilentEnds("", "", [Finish("end_turn", s.lastUsage)]);
      SilentAppend(speech, [Finish("end_turn", s.lastUsage)]);
      assert SpeechActions([], mode.skipThinking) == [] && NoTools([]) by { Nothing(mode.skipThinking); }
    } else {
      var (c, next, rest) := (chunks[0], Process(mode, s, chunks[0]), chunks[1..]);
      SilentRun(mode, next, rest);
      if Bearing(c) {
        var choice := c.choices[0];
        var (n1, first) := Deliver(s.normalizer, choice.content, choice.reasoning);
        SilentChunk(mode, s.normalizer, c);
        SilentAppend(ChunkActions(mode, s.normalizer, c), RunActions(mode, next, rest));
        RunCons(s.normalizer, choice.content, choice.reasoning, AnthropicContent.Inputs(rest));
        SpeechAppend(first, Run(n1, AnthropicContent.Inputs(rest)).1, mode.skipThinking);
        NoToolsAppend(choice.toolCalls, AllFragments(rest));
      } else {
        assert [] + RunActions(mode, next, rest) == RunActions(mode, next, rest);
        assert [] + AnthropicContent.Inputs(rest) == AnthropicContent.Inputs(rest);
        assert [] + AllFragments(rest) == AllFragments(rest);
      }
    }
  }

  lemma Nothing(skipThinking: bool)
    ensures SpeechActions([], skipThinking) == [] && NoTools([])
  {
  }

  lemma {:induction false} BehindQuiet(mode: Mode, s: Translator, chunks: seq<StreamChunk>)
    requires s.normalizer.parser.Valid()
    ensures Silent(PartsOf(mode, s, chunks).after) <==>
      !HasEnd(chunks) || Quiet(mode, Run(s.normalizer, AnthropicContent.Inputs(Upto(chunks))).0, Behind(chunks))
    decreases chunks
  {
    hide Quiet, Silent, HasEnd, Deliver, Keepalive, Talk, RunActions, ActAll;
    if chunks == [] {
      assert !HasEnd([]) && Silent([]) by { NoEnd(); }
    } else {
      var (c, next, rest) := (chunks[0], Process(mode, s, chunks[0]), chunks[1..]);
      EndCons(chunks);
      var tail := if Ends(c) then [] else Upto(rest);
      assert ([c] + tail)[1..] == tail && ([c] + tail)[0] == c;
      if Bearing(c) {
        RunCons(s.normalizer, c.choices[0].content, c.choices[0].reasoning, AnthropicContent.Inputs(tail));
      } else {
        assert [] + AnthropicContent.Inputs(tail) == AnthropicContent.Inputs(tail);
      }
      if Ends(c) {
        SilentRun(mode, next, rest);
      } else {
        BehindQuiet(mode, next, rest);
      }
    }
  }

  lemma NoEnd()
    ensures !HasEnd([]) && Silent([])
  {
  }

  /** Main result, exact, on what upstream sends: message_stop is the last event if and only if no chunk finishes the
      message, or everything behind the first one that does is quiet. */
  lemma StopLastOnChunks(mode: Mode, chunks: seq<StreamChunk>)
    ensures StopLast(Whole(mode, chunks).core.trace) <==>
      !HasEnd(chunks) ||
      Quiet(mode, Run(INITIAL.normalizer, AnthropicContent.Inputs(Upto(chunks))).0, Behind(chunks))
  {
    hide Quiet, Silent, HasEnd, PartsOf, Run, Whole;
    StopLastIff(mode, chunks);
    BehindQuiet(mode, INITIAL, chunks);
  }

  /** If no choices come behind the first finish: exactly unless a thinking block is unfinished at that point. */
  lemma FinishThenStop(mode: Mode, chunks: seq<StreamChunk>)
    requires HasEnd(chunks) && forall i :: 0 <= i < |Behind(chunks)| ==> !Bearing(Behind(chunks)[i])
    ensures StopLast(Whole(mode, chunks).core.trace) <==>
      !AO.Pending(Run(INITIAL.normalizer, AnthropicContent.Inputs(Upto(chunks))).0, mode.skipThinking)
  {
    hide HasEnd, Whole, Upto, Behind, Bearing, AO.Pending;
    StopLastOnChunks(mode, chunks);
    Unbearing(Behind(chunks));
  }

  lemma {:induction false} Unbearing(chunks: seq<StreamChunk>)
    requires forall i :: 0 <= i < |chunks| ==> !Bearing(chunks[i])
    ensures AnthropicContent.Inputs(chunks) == [] && AllFragments(chunks) == []
  {
    hide Bearing;
    if chunks != [] { Unbearing(chunks[1..]); }
  }

  /** The same at any moment after a finish: the flush sends nothing behind message_stop exactly if no block is
      pending. */
  lemma FlushStaysLast(mode: Mode, s: Translator)
    requires s.normalizer.parser.Valid() && s.core.finished && s.core.started && StopLast(s.core.trace)
    ensures StopLast(Flushed(mode, s).core.trace) <==> !AO.Pending(s.normalizer, mode.skipThinking)
  {
    hide ActAll, Silent, Close;
    SilentRun(mode, s, []);
    BehindStop(s.core, FlushActions(mode, s));
    assert Run(s.normalizer, []) == (s.normalizer, []) && NoTools([]);
    assert AnthropicContent.Inputs([]) == [];
  }

  // ---- A run that goes on behind message_stop ----

  /** One chunk that is cut off inside a think block: the flush sends the block behind message_stop. */
  lemma CutOffThinking(mode: Mode, text: string, reason: string)
    requires !mode.skipThinking && text != "" && '<' !in text
    ensures var c := StreamChunk("", "", 0, [Choice(OPEN_THINK + text, "", [], Some(reason))], None);
      !StopLast(Whole(mode, [c]).core.trace)
  {
    hide Feed, Whole, StopLast;
    var c := StreamChunk("", "", 0, [Choice(OPEN_THINK + text, "", [], Some(reason))], None);
    OpenBlock(text);
    assert Ends([c][0]) && HasEnd([c]);
    assert Upto([c]) == [c] && Behind([c]) == [] by { assert [c] + [] == [c]; }
    var input := Delta(OPEN_THINK + text, "");
    assert AnthropicContent.Inputs([c]) == [input] by { assert [input] + [] == [input]; }
    RunCons(INITIAL.normalizer, OPEN_THINK + text, "", []);
    assert [input] + [] == [input];
    FinishThenStop(mode, [c]);
  }
}
