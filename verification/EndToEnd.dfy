/** The same backend chunks, streamed or buffered: handler.nonStreamResponse accumulates them and normalises the result
    as a whole (translator/response.go), StreamTranslator normalises them one by one. */
module EndToEnd {
  import opened Strings
  import opened Tags
  import opened Chunks
  import opened Options
  import opened Normalizer
  import opened Reference
  import opened Refinement
  import opened ChunkedStream
  import opened StreamGuarantees
  import opened BatchNormalizer
  import opened BatchAgreement
  import A = AnthropicStream
  import T = AnthropicTrace
  import C = AnthropicContent
  import S = SseBuffer

  /** The content deltas of all chunks with choices, keepalives included: what the buffer sees. */
  function AllDeltas(chunks: seq<StreamChunk>): seq<string> {
    if chunks == [] then []
    else (if chunks[0].choices != [] then [chunks[0].choices[0].content] else []) + AllDeltas(chunks[1..])
  }

  /** The reasoning of all chunks with choices. */
  function AllReasoning(chunks: seq<StreamChunk>): seq<string> {
    if chunks == [] then []
    else (if chunks[0].choices != [] then [chunks[0].choices[0].reasoning] else []) + AllReasoning(chunks[1..])
  }

  /** The content deltas that the stream translators see. */
  function Deltas(chunks: seq<StreamChunk>): seq<string> {
    if chunks == [] then []
    else (if Bearing(chunks[0]) then [chunks[0].choices[0].content] else []) + Deltas(chunks[1..])
  }

  /** Keepalive chunks carry no text. */
  predicate NoHiddenText(chunks: seq<StreamChunk>) {
    forall i :: 0 <= i < |chunks| && Keepalive(chunks[i]) && chunks[i].choices != [] ==>
      chunks[i].choices[0].content == "" && chunks[i].choices[0].reasoning == ""
  }

  /** The backend sends no reasoning of its own. */
  predicate NoReasoning(chunks: seq<StreamChunk>) {
    forall i :: 0 <= i < |chunks| && Bearing(chunks[i]) ==> chunks[i].choices[0].reasoning == ""
  }

  // ---- Buffered ----

  lemma {:induction false} FragmentsKeepText(b: S.Buffer, fragments: seq<ToolFragment>)
    ensures var d := S.AddFragments(b, fragments); d.content == b.content && d.reasoning == b.reasoning
    decreases |fragments|
  {
    if fragments != [] { FragmentsKeepText(b, fragments[..|fragments| - 1]); }
  }

  lemma ChunkText(b: S.Buffer, c: StreamChunk)
    ensures S.AddChunk(b, c).content == b.content + (if c.choices != [] then c.choices[0].content else "")
    ensures S.AddChunk(b, c).reasoning == b.reasoning + (if c.choices != [] then c.choices[0].reasoning else "")
  {
    hide S.AddFragments;
    assert b.content + "" == b.content && b.reasoning + "" == b.reasoning;
    if c.choices != [] {
      var b1 := if c.usage.Some? then b.(usage := c.usage) else b;
      var ch := c.choices[0];
      FragmentsKeepText(b1.(content := b1.content + ch.content, reasoning := b1.reasoning + ch.reasoning),
                        ch.toolCalls);
    }
  }

  lemma {:induction false} DeltasSnoc(chunks: seq<StreamChunk>, c: StreamChunk)
    ensures AllDeltas(chunks + [c]) == AllDeltas(chunks) + if c.choices != [] then [c.choices[0].content] else []
    ensures AllReasoning(chunks + [c]) ==
      AllReasoning(chunks) + if c.choices != [] then [c.choices[0].reasoning] else []
  {
    if chunks == [] {
      assert chunks + [c] == [c] && [c][1..] == [];
    } else {
      assert (chunks + [c])[1..] == chunks[1..] + [c] && (chunks + [c])[0] == chunks[0];
      DeltasSnoc(chunks[1..], c);
      FrontOf(chunks[0], AllDeltas(chunks[1..]), if c.choices != [] then [c.choices[0].content] else []);
      FrontOf(chunks[0], AllReasoning(chunks[1..]), if c.choices != [] then [c.choices[0].reasoning] else []);
    }
  }

  lemma FrontOf(c: StreamChunk, a: seq<string>, b: seq<string>)
    ensures c.choices != [] ==> [c.choices[0].content] + (a + b) == [c.choices[0].content] + a + b
    ensures c.choices != [] ==> [c.choices[0].reasoning] + (a + b) == [c.choices[0].reasoning] + a + b
    ensures [] + (a + b) == [] + a + b
  {
  }

  /** For every input the buffered content is all content deltas joined, and the buffered reasoning all of the
      backend's. */
  lemma {:induction false} BufferedText(chunks: seq<StreamChunk>)
    ensures S.AddChunks(S.EMPTY, chunks).content == Concat(AllDeltas(chunks))
    ensures S.AddChunks(S.EMPTY, chunks).reasoning == Concat(AllReasoning(chunks))
    decreases |chunks|
  {
    hide S.AddChunk, Concat;
    if chunks == [] {
      assert Concat([]) == "" by { NothingJoined(); }
    } else {
      var n := |chunks| - 1;
      BufferedText(chunks[..n]);
      ChunkText(S.AddChunks(S.EMPTY, chunks[..n]), chunks[n]);
      assert chunks == chunks[..n] + [chunks[n]];
      DeltasSnoc(chunks[..n], chunks[n]);
      if chunks[n].choices != [] {
        ConcatSnoc(AllDeltas(chunks[..n]), chunks[n].choices[0].content);
        ConcatSnoc(AllReasoning(chunks[..n]), chunks[n].choices[0].reasoning);
      } else {
        assert AllDeltas(chunks[..n]) + [] == AllDeltas(chunks[..n]);
        assert AllReasoning(chunks[..n]) + [] == AllReasoning(chunks[..n]);
      }
    }
  }

  lemma {:induction false} SilentBackend(chunks: seq<StreamChunk>)
    requires NoHiddenText(chunks) && NoReasoning(chunks)
    ensures Concat(AllReasoning(chunks)) == ""
  {
    hide Keepalive;
    if chunks != [] {
      var rest := chunks[1..];
      assert forall i :: 0 <= i < |rest| ==> rest[i] == chunks[i + 1];
      SilentBackend(rest);
      assert chunks[0].choices != [] ==> chunks[0].choices[0].reasoning == "";
      ConcatAppend(if chunks[0].choices != [] then [""] else [], AllReasoning(rest));
      assert Concat([""]) == "" + "" && Concat([]) == "";
    }
  }

  lemma {:induction false} SameText(chunks: seq<StreamChunk>)
    requires NoHiddenText(chunks)
    ensures Concat(AllDeltas(chunks)) == Concat(Deltas(chunks))
  {
    hide Keepalive;
    if chunks != [] {
      var rest := chunks[1..];
      assert forall i :: 0 <= i < |rest| ==> rest[i] == chunks[i + 1];
      SameText(rest);
      ConcatAppend(if chunks[0].choices != [] then [chunks[0].choices[0].content] else [], AllDeltas(rest));
      ConcatAppend(if Bearing(chunks[0]) then [chunks[0].choices[0].content] else [], Deltas(rest));
      OneText(chunks[0]);
    }
  }

  lemma OneText(c: StreamChunk)
    ensures c.choices != [] ==> Concat([c.choices[0].content]) == c.choices[0].content
    ensures Concat([]) == ""
  {
    if c.choices != [] { assert c.choices[0].content + "" == c.choices[0].content; }
  }

  lemma NothingJoined()
    ensures Concat([]) == ""
  {
  }

  // ---- Streamed ----

  lemma {:induction false} VisibleTexts(events: seq<Event>)
    ensures Concat(Contents(Visible(events, false))) == Texts(events)
    ensures Reasonings(Visible(events, false)) == Blocks(events)
  {
    if events != [] {
      VisibleTexts(events[1..]);
      OutAppend(Shown(events[0], false), Visible(events[1..], false));
      ConcatAppend(Contents(Shown(events[0], false)), Contents(Visible(events[1..], false)));
      OneShown(events[0]);
    }
  }

  lemma OneShown(e: Event)
    ensures Concat(Contents(Shown(e, false))) == if e.Text? then e.s else ""
    ensures Reasonings(Shown(e, false)) == if e.Block? then [e.s] else []
  {
    if e.Text? { assert Contents([Content(e.s)]) == [e.s] && Concat([e.s]) == e.s + ""; }
    if e.Block? { assert Reasonings([Reasoning(e.s)]) == [e.s]; }
  }

  lemma MuteToEnd(deltas: seq<string>)
    ensures Run(State(START, false), Mute(deltas) + [End]).1 == Visible(Complete(deltas), false)
  {
    hide Stream, Visible, Finish;
    var (p, events) := Stream(START, deltas);
    MuteIsStream(START, deltas);
    RunAppend(State(START, false), Mute(deltas), [End]);
    JustEnd(State(p, false));
    VisibleAppend(events, Finish(p).1);
  }

  lemma JustEnd(n: State)
    requires n.parser.Valid()
    ensures Run(n, [End]).1 == Close(n).1
  {
    hide Close;
    assert [End][1..] == [] && Close(n).1 + [] == Close(n).1;
  }

  /** What the normaliser gets differs from that in the reasoning at most. */
  lemma {:induction false} InputsMuted(chunks: seq<StreamChunk>)
    ensures var (a, b) := (C.Inputs(chunks), Mute(Deltas(chunks)));
      |a| == |b| && (forall i :: 0 <= i < |a| ==> SameContent(a[i], b[i])) && (NoReasoning(chunks) ==> a == b)
  {
    hide Keepalive, C.Inputs, Deltas, Mute;
    if chunks == [] {
      NothingMuted();
    } else {
      var rest := chunks[1..];
      assert forall i :: 0 <= i < |rest| ==> rest[i] == chunks[i + 1];
      InputsMuted(rest);
      MutedCons(chunks);
      var (a, b) := (C.Inputs(rest), Mute(Deltas(rest)));
      if Bearing(chunks[0]) {
        var c := chunks[0].choices[0];
        SameCons(Delta(c.content, c.reasoning), Delta(c.content, ""), a, b);
      }
    }
  }

  lemma MutedCons(chunks: seq<StreamChunk>)
    requires chunks != []
    ensures var (a, b) := (C.Inputs(chunks[1..]), Mute(Deltas(chunks[1..])));
      if Bearing(chunks[0]) then
        var c := chunks[0].choices[0];
        C.Inputs(chunks) == [Delta(c.content, c.reasoning)] + a && Mute(Deltas(chunks)) == [Delta(c.content, "")] + b
      else C.Inputs(chunks) == a && Mute(Deltas(chunks)) == b
  {
    hide Keepalive;
    var rest := chunks[1..];
    if Bearing(chunks[0]) {
      assert ([chunks[0].choices[0].content] + Deltas(rest))[1..] == Deltas(rest);
    } else {
      assert [] + C.Inputs(rest) == C.Inputs(rest) && [] + Deltas(rest) == Deltas(rest);
    }
  }

  lemma NothingMuted()
    ensures C.Inputs([]) == [] && Mute(Deltas([])) == []
  {
  }

  lemma SameCons(x: Input, y: Input, a: seq<Input>, b: seq<Input>)
    requires |a| == |b| && (forall i :: 0 <= i < |a| ==> SameContent(a[i], b[i])) && SameContent(x, y)
    ensures var (p, q) := ([x] + a, [y] + b); forall i :: 0 <= i < |p| ==> SameContent(p[i], q[i])
  {
    hide SameContent;
  }

  /** The text that the client is sent does not depend on backend reasoning; the reasoning does. */
  lemma StreamedText(mode: A.Mode, chunks: seq<StreamChunk>)
    ensures C.Carried(T.Whole(mode, chunks).core.trace, C.TextChannel) == Texts(Complete(Deltas(chunks)))
    ensures NoReasoning(chunks) ==>
      C.Carried(T.Whole(mode, chunks).core.trace, C.ThinkingChannel) ==
      if mode.skipThinking then "" else Concat(Blocks(Complete(Deltas(chunks))))
  {
    hide C.Carried, NoReasoning, Stream, Visible, Finish, T.Whole, Run, SameContent;
    var (a, b) := (C.Inputs(chunks) + [End], Mute(Deltas(chunks)) + [End]);
    C.Conservation(mode, chunks, C.TextChannel);
    C.Conservation(mode, chunks, C.ThinkingChannel);
    InputsMuted(chunks);
    assert SameContent(End, End) by { BothEnd(); }
    NonInterference(State(START, false), State(START, false), a, b);
    MuteToEnd(Deltas(chunks));
    VisibleTexts(Complete(Deltas(chunks)));
  }

  lemma BothEnd()
    ensures SameContent(End, End)
  {
  }

  lemma ReasoningApart(content: string, reasoning: string)
    ensures NormalizeContent(content, reasoning).0 == NormalizeContent(content, "").0
  {
    hide ExtractThinkingTags;
  }

  /** Main result. If the text of a run has matched tags, stray closing ones aside, none of its closing tags cut by a
      chunk boundary, and keepalive chunks carry no text: without stray tags the text of the buffered answer is the
      text the streaming client gets, trimmed, exactly if a block that never ends is blank, or outside a block the
      text does not end like an unfinished opening tag, whatever reasoning the backend sends. If it sends none, the
      reasoning is the streamed blocks, trimmed and joined by newlines, exactly if a block that never ends is blank. */
  lemma BufferedMatchesStreamed(mode: A.Mode, chunks: seq<StreamChunk>)
    requires chunks != [] && NoHiddenText(chunks)
    requires var deltas := Deltas(chunks);
      var parsed := Parse(Concat(deltas));
      Uncut("", deltas) && Tidy(Concat(deltas), 0) && Tagless(parsed.outside + parsed.pending)
    ensures var (answer, t) := (S.AnswerOf(chunks).value, T.Whole(mode, chunks).core.trace);
      var (content, reasoning) := NormalizeContent(answer.content, answer.reasoning);
      var (blocks, parsed) := (Blocks(Complete(Deltas(chunks))), Parse(Concat(Deltas(chunks))));
      (parsed.strays == 0 ==>
         (content == TrimSpace(C.Carried(t, C.TextChannel)) <==>
            if parsed.inBlock then TrimSpace(parsed.pending) == ""
            else !HasIncompleteOpenTag(Concat(Deltas(chunks))))) &&
      (NoReasoning(chunks) ==>
         (reasoning == Join(TrimmedParts(blocks), "\n") <==> TrimSpace(parsed.pending) == "") &&
         C.Carried(t, C.ThinkingChannel) == if mode.skipThinking then "" else Concat(blocks))
  {
    hide NoReasoning, NoHiddenText, Uncut, Tidy, Tagless, Parse, NormalizeContent, TrimSpace, Join, TrimmedParts,
      HasIncompleteOpenTag, C.Carried, S.AddChunks, Complete, Deltas, AllDeltas, AllReasoning, Blocks, T.Whole, Concat;
    BufferedText(chunks);
    if NoReasoning(chunks) { SilentBackend(chunks); }
    SameText(chunks);
    StreamedText(mode, chunks);
    StreamMatchesBatch(Deltas(chunks));
    ReasoningApart(S.AddChunks(S.EMPTY, chunks).content, S.AddChunks(S.EMPTY, chunks).reasoning);
  }
}
