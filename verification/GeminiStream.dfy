/** GeminiStreamTranslator (translator/gemini_stream.go): tool calls are gathered by index and sent at a finish, which
    starts over. They are the named calls of the buffered answer to the chunks since the finish before. */
module GeminiStream {
  import opened Chunks
  import opened Options
  import opened Normalizer
  import opened StreamGuarantees
  import opened Heard
  import Strings
  import S = SseBuffer
  import BufferedAgreement

  datatype GeminiEvent =
    | UsageOnly(usage: Usage)
    | Part(text: string, thought: bool)
    | FunctionCall(index: int, name: string, args: string)
    | Finished(reason: string)

  /** `toolCallNames` and `toolCallArgs` */
  datatype Tools = Tools(names: map<int, string>, args: map<int, string>)

  const NO_TOOLS := Tools(map[], map[])

  function ArgsOf(t: Tools, index: int): string {
    if index in t.args then t.args[index] else ""
  }

  function AddFragment(t: Tools, f: ToolFragment): Tools {
    Tools(if f.name != "" then t.names[f.index := f.name] else t.names,
          if f.arguments != "" then t.args[f.index := ArgsOf(t, f.index) + f.arguments] else t.args)
  }

  function AddFragments(t: Tools, fragments: seq<ToolFragment>): Tools
    decreases |fragments|
  {
    if fragments == [] then t
    else AddFragment(AddFragments(t, fragments[..|fragments| - 1]), fragments[|fragments| - 1])
  }

  function CallAt(t: Tools, index: int): GeminiEvent
    requires index in t.names
  {
    FunctionCall(index, t.names[index], ArgsOf(t, index))
  }

  function Calls(t: Tools): set<GeminiEvent> {
    set i | i in t.names :: CallAt(t, i)
  }

  // ---- Runs ----

  predicate Finishes(c: StreamChunk) {
    c.choices != [] && c.choices[0].finishReason.Some?
  }

  /** The tools held after these chunks: a finish empties both maps. */
  function After(chunks: seq<StreamChunk>): Tools
    decreases |chunks|
  {
    if chunks == [] then NO_TOOLS
    else if Finishes(chunks[|chunks| - 1]) then NO_TOOLS
    else Gathered(chunks)
  }

  /** The tools that the last chunk finds and adds to; what it sends, if it is a finish. */
  function Gathered(chunks: seq<StreamChunk>): Tools
    requires chunks != []
    decreases |chunks|, 0
  {
    AddFragments(After(chunks[..|chunks| - 1]), BufferedAgreement.Fragments(chunks[|chunks| - 1]))
  }

  /** The chunks after the last finish. */
  function Since(chunks: seq<StreamChunk>): seq<StreamChunk>
    decreases |chunks|
  {
    if chunks == [] || Finishes(chunks[|chunks| - 1]) then []
    else Since(chunks[..|chunks| - 1]) + [chunks[|chunks| - 1]]
  }

  /** The chunks up to and including the last finish. */
  function Until(chunks: seq<StreamChunk>): seq<StreamChunk>
    decreases |chunks|
  {
    if chunks == [] || Finishes(chunks[|chunks| - 1]) then chunks else Until(chunks[..|chunks| - 1])
  }

  /** The last chunk with those since the finish before it, and what came earlier. */
  function Segment(chunks: seq<StreamChunk>): seq<StreamChunk>
    requires chunks != []
  {
    Since(chunks[..|chunks| - 1]) + [chunks[|chunks| - 1]]
  }

  function Earlier(chunks: seq<StreamChunk>): seq<StreamChunk>
    requires chunks != []
  {
    Until(chunks[..|chunks| - 1])
  }

  /** Nothing with choices has come since a finish. */
  predicate Done(chunks: seq<StreamChunk>)
    decreases |chunks|
  {
    chunks != [] &&
    (Finishes(chunks[|chunks| - 1]) || (chunks[|chunks| - 1].choices == [] && Done(chunks[..|chunks| - 1])))
  }

  function Spoken(out: seq<Emission>): seq<GeminiEvent> {
    if out == [] then []
    else (if out[0].text == "" then [] else [Part(out[0].text, out[0].Reasoning?)]) + Spoken(out[1..])
  }

  /** What the client sees of speech. */
  function Sees(e: GeminiEvent): seq<Seen> {
    match e
    case Part(text, thought) => if thought then [Thought(text)] else [Said(text)]
    case _ => []
  }

  function SeenIn(t: seq<GeminiEvent>): seq<Seen> {
    if t == [] then [] else Sees(t[0]) + SeenIn(t[1..])
  }

  lemma {:induction false} SeenInAppend(a: seq<GeminiEvent>, b: seq<GeminiEvent>)
    ensures SeenIn(a + b) == SeenIn(a) + SeenIn(b)
  {
    if a == [] {
      assert a + b == b;
    } else {
      assert (a + b)[1..] == a[1..] + b;
      SeenInAppend(a[1..], b);
    }
  }

  lemma {:induction false} SpokenSeen(out: seq<Emission>)
    ensures SeenIn(Spoken(out)) == HeardBy(out, false)
    ensures forall i :: 0 <= i < |Spoken(out)| ==> Spoken(out)[i].Part?
  {
    if out != [] {
      SpokenSeen(out[1..]);
      var first := if out[0].text == "" then [] else [Part(out[0].text, out[0].Reasoning?)];
      SeenInAppend(first, Spoken(out[1..]));
      if first != [] { assert first[1..] == [] && Sees(first[0]) + [] == Sees(first[0]); }
    }
  }

  /** Calls, finishes and usage are no speech. */
  lemma {:induction false} OthersSilent(t: seq<GeminiEvent>)
    requires forall i :: 0 <= i < |t| ==> !t[i].Part?
    ensures SeenIn(t) == []
  {
    if t != [] { OthersSilent(t[1..]); }
  }

  /** What one chunk feeds the normaliser: its delta, and the end at a finish. */
  function InputsOf(c: StreamChunk): seq<Input> {
    if c.choices == [] then []
    else
      [Delta(c.choices[0].content, c.choices[0].reasoning)]
      + if c.choices[0].finishReason.Some? then [End] else []
  }

  function Fed(chunks: seq<StreamChunk>): seq<Input> {
    if chunks == [] then [] else Fed(chunks[..|chunks| - 1]) + InputsOf(chunks[|chunks| - 1])
  }

  /** The normaliser has been fed `inputs`, and the client has seen what came out. */
  predicate Told(n: State, t: seq<GeminiEvent>, inputs: seq<Input>) {
    n == Run(State(START, false), inputs).0 && SeenIn(t) == HeardBy(Run(State(START, false), inputs).1, false)
  }

  lemma NothingTold()
    ensures Told(State(START, false), [], [])
  {
  }

  lemma ToldMore(n: State, t: seq<GeminiEvent>, inputs: seq<Input>, input: Input, u: seq<GeminiEvent>)
    requires n.parser.Valid() && Told(n, t, inputs) && u == t + Spoken(Step(n, input).1)
    ensures Told(Step(n, input).0, u, inputs + [input])
  {
    hide Step, Spoken, HeardBy, SeenIn, Run;
    var (m, out) := Step(n, input);
    var (n0, earlier) := Run(State(START, false), inputs);
    RunAppend(State(START, false), inputs, [input]);
    RunOne(n, input);
    SeenInAppend(t, Spoken(out));
    SpokenSeen(out);
    HeardAppend(earlier, out, false);
  }

  lemma RunOne(n: State, input: Input)
    requires n.parser.Valid()
    ensures Run(n, [input]) == Step(n, input)
  {
    hide Step;
    assert [input][1..] == [] && Step(n, input).1 + [] == Step(n, input).1;
  }

  /** Events that are no speech change nothing. */
  lemma ToldStill(n: State, t: seq<GeminiEvent>, inputs: seq<Input>, others: seq<GeminiEvent>)
    requires Told(n, t, inputs) && forall i :: 0 <= i < |others| ==> !others[i].Part?
    ensures Told(n, t + others, inputs)
  {
    hide HeardBy, SeenIn, Run;
    SeenInAppend(t, others);
    OthersSilent(others);
    assert SeenIn(t) + [] == SeenIn(t);
  }

  /** A chunk with choices: its delta, and at a finish the end, then events that are no speech. */
  lemma ToldChunk(n: State, t: seq<GeminiEvent>, inputs: seq<Input>, c: StreamChunk, others: seq<GeminiEvent>)
    requires n.parser.Valid() && Told(n, t, inputs) && c.choices != []
    requires forall i :: 0 <= i < |others| ==> !others[i].Part?
    ensures var (m, out) := Deliver(n, c.choices[0].content, c.choices[0].reasoning);
      if c.choices[0].finishReason.None? then Told(m, t + Spoken(out), inputs + InputsOf(c))
      else Told(Close(m).0, t + Spoken(out) + Spoken(Close(m).1) + others, inputs + InputsOf(c))
  {
    hide Told, Deliver, Close, Spoken;
    var d := Delta(c.choices[0].content, c.choices[0].reasoning);
    var (m, out) := Deliver(n, d.content, d.reasoning);
    ToldMore(n, t, inputs, d, t + Spoken(out));
    assert [d] + [] == [d];
    if c.choices[0].finishReason.Some? {
      var u := t + Spoken(out) + Spoken(Close(m).1);
      ToldMore(m, t + Spoken(out), inputs + [d], End, u);
      ToldStill(Close(m).0, u, inputs + [d] + [End], others);
      assert inputs + [d] + [End] == inputs + ([d] + [End]);
    }
  }

  lemma HasMember(s: set<int>)
    ensures s == {} || exists i :: i in s
  {
    if forall i :: i !in s { assert s == {}; }
  }

  class GeminiStreamTranslator {
    var toolCallNames: map<int, string>
    var toolCallArgs: map<int, string>
    const normalizer: StreamNormalizer
    var trace: seq<GeminiEvent>
    ghost var fed: seq<StreamChunk>
    ghost var inputs: seq<Input>

    /** The maps hold what the chunks fed so far say, the client has seen what the normaliser made of its inputs, and
        after a finish it has nothing left to say. */
    ghost predicate Valid()
      reads this, normalizer
    {
      normalizer.Valid() && Current() == After(fed) && Told(normalizer.Current(), trace, inputs) &&
      (Done(fed) ==> Spoken(Close(normalizer.Current()).1) == [])
    }

    ghost function Current(): Tools
      reads this
    {
      Tools(toolCallNames, toolCallArgs)
    }

    constructor ()
      ensures Valid() && fresh(normalizer) && Current() == NO_TOOLS && normalizer.Current() == State(START, false) &&
        trace == []
      ensures fed == [] && inputs == []
    {
      toolCallNames, toolCallArgs, trace, fed, inputs := map[], map[], [], [], [];
      normalizer := new StreamNormalizer();
      new;
      NothingTold();
    }

    method Say(out: seq<Emission>)
      modifies this`trace
      ensures trace == old(trace) + Spoken(out)
    {
      var i := 0;
      assert out[0..] == out;
      while i < |out|
        invariant 0 <= i <= |out| && trace + Spoken(out[i..]) == old(trace) + Spoken(out)
      {
        assert out[i..][1..] == out[i + 1..];
        ghost var before := trace;
        if out[i].text != "" {
          trace := trace + [Part(out[i].text, out[i].Reasoning?)];
          assert before + ([Part(out[i].text, out[i].Reasoning?)] + Spoken(out[i + 1..])) ==
            trace + Spoken(out[i + 1..]);
        } else {
          assert [] + Spoken(out[i + 1..]) == Spoken(out[i + 1..]);
        }
        i := i + 1;
      }
    }

    method TakeFragments(fragments: seq<ToolFragment>)
      modifies this`toolCallNames, this`toolCallArgs
      ensures Current() == AddFragments(old(Current()), fragments)
    {
      var i := 0;
      while i < |fragments|
        invariant 0 <= i <= |fragments| && Current() == AddFragments(old(Current()), fragments[..i])
      {
        assert fragments[..i + 1][..i] == fragments[..i];
        var tc := fragments[i];
        if tc.name != "" {
          toolCallNames := toolCallNames[tc.index := tc.name];
        }
        if tc.arguments != "" {
          toolCallArgs := toolCallArgs[tc.index :=
            (if tc.index in toolCallArgs then toolCallArgs[tc.index] else "") + tc.arguments];
        }
        i := i + 1;
      }
      assert fragments[..i] == fragments;
    }

    /** The calls go out in whatever order the map is walked, each once. */
    method EmitCalls() returns (calls: seq<GeminiEvent>)
      modifies this`trace
      ensures trace == old(trace) + calls && multiset(calls) == multiset(Calls(Current()))
    {
      calls := [];
      ghost var t := Current();
      var left := toolCallNames.Keys;
      ghost var done: set<GeminiEvent> := {};
      while left != {}
        invariant left <= toolCallNames.Keys && t == Current()
        invariant done == set i | i in t.names && i !in left :: CallAt(t, i)
        invariant trace == old(trace) + calls && multiset(calls) == multiset(done)
        decreases left
      {
        HasMember(left);
        var index :| index in left;
        var arguments := if index in toolCallArgs then toolCallArgs[index] else "";
        var call := FunctionCall(index, toolCallNames[index], arguments);
        assert call == CallAt(t, index) && call !in done;
        trace := trace + [call];
        calls := calls + [call];
        done := done + {call};
        left := left - {index};
      }
      assert done == Calls(t);
    }

    /** The end of a finish chunk: what the normaliser holds, the calls, the finish, and a fresh start. */
    method Finish(reason: string) returns (calls: seq<GeminiEvent>)
      requires normalizer.Valid()
      modifies this`trace, this`toolCallNames, this`toolCallArgs, normalizer
      ensures normalizer.Valid() && normalizer.Current() == Close(old(normalizer.Current())).0
      ensures Current() == NO_TOOLS && multiset(calls) == multiset(Calls(old(Current())))
      ensures trace == old(trace) + Spoken(Close(old(normalizer.Current())).1) + calls + [Finished(reason)]
    {
      hide Close, Calls, Spoken;
      var rest := normalizer.Flush();
      Say(rest);
      calls := EmitCalls();
      toolCallNames, toolCallArgs := map[], map[];
      trace := trace + [Finished(reason)];
    }

    /** One step; gives back the function calls sent by this chunk. */
    method Handle(chunk: StreamChunk) returns (calls: seq<GeminiEvent>)
      requires normalizer.Valid()
      modifies this`trace, this`toolCallNames, this`toolCallArgs, normalizer
      ensures normalizer.Valid()
      ensures chunk.choices == [] ==>
        Current() == old(Current()) && normalizer.Current() == old(normalizer.Current()) &&
        trace == old(trace) + (if chunk.usage.Some? then [UsageOnly(chunk.usage.value)] else [])
      ensures chunk.choices != [] ==>
        var ch := chunk.choices[0];
        var (n, out) := Deliver(old(normalizer.Current()), ch.content, ch.reasoning);
        var t := AddFragments(old(Current()), ch.toolCalls);
        if ch.finishReason.None? then
          Current() == t && normalizer.Current() == n && trace == old(trace) + Spoken(out)
        else
          Current() == NO_TOOLS && normalizer.Current() == Close(n).0 && multiset(calls) == multiset(Calls(t)) &&
          trace == old(trace) + Spoken(out) + Spoken(Close(n).1) + calls + [Finished(ch.finishReason.value)]
    {
      hide Deliver, Close, Calls, Spoken, AddFragments;
      calls := [];
      if chunk.choices == [] {
        if chunk.usage.Some? {
          trace := trace + [UsageOnly(chunk.usage.value)];
        }
        return;
      }
      var ch := chunk.choices[0];
      var out := normalizer.ProcessChunk(ch.content, ch.reasoning);
      Say(out);
      TakeFragments(ch.toolCalls);
      if ch.finishReason.Some? {
        calls := Finish(ch.finishReason.value);
      }
    }

    /** Along a run: what a finish sends are the named calls of the buffered answer to the chunks since the one
        before, behind all speech of its chunk. */
    method ProcessChunk(chunk: StreamChunk) returns (calls: seq<GeminiEvent>)
      requires Valid()
      modifies this, normalizer
      ensures Valid() && fed == old(fed) + [chunk] && inputs == old(inputs) + InputsOf(chunk)
      ensures old(trace) <= trace
      ensures Finishes(chunk) ==>
        var n := |trace| - |calls| - 1;
        n >= |old(trace)| && (forall i :: |old(trace)| <= i < n ==> trace[i].Part?) &&
        (forall i :: 0 <= i < |calls| ==> calls[i].FunctionCall?) &&
        trace[n..] == calls + [Finished(chunk.choices[0].finishReason.value)]
      ensures chunk.choices == [] ==>
        normalizer.Current() == old(normalizer.Current()) &&
        trace == old(trace) + (if chunk.usage.Some? then [UsageOnly(chunk.usage.value)] else [])
      ensures chunk.choices != [] ==>
        var ch := chunk.choices[0];
        var (n, out) := Deliver(old(normalizer.Current()), ch.content, ch.reasoning);
        if ch.finishReason.None? then
          normalizer.Current() == n && trace == old(trace) + Spoken(out)
        else
          normalizer.Current() == Close(n).0 &&
          multiset(calls) == multiset(Named(S.AddChunks(S.EMPTY, Segment(fed)))) &&
          trace == old(trace) + Spoken(out) + Spoken(Close(n).1) + calls + [Finished(ch.finishReason.value)]
    {
      hide Deliver, Close, Calls, Named, Segment, Spoken, AddFragments, Done, After, Gathered, Since, S.AddChunks, Told;
      ghost var (before, was, t) := (fed, normalizer.Current(), trace);
      calls := Handle(chunk);
      fed := before + [chunk];
      inputs := inputs + InputsOf(chunk);
      DoneSnoc(before, chunk);
      AfterSnoc(before, chunk);
      GeminiCalls(fed);
      if Finishes(chunk) {
        NothingAfterFinish(Deliver(old(normalizer.Current()), chunk.choices[0].content, chunk.choices[0].reasoning).0);
        NamedOnly(S.AddChunks(S.EMPTY, Segment(fed)), calls);
      }
      if chunk.choices == [] {
        ToldStill(was, t, old(inputs), if chunk.usage.Some? then [UsageOnly(chunk.usage.value)] else []);
        assert old(inputs) + [] == old(inputs);
        assert t + [] == t;
      } else {
        ghost var (n, out) := Deliver(was, chunk.choices[0].content, chunk.choices[0].reasoning);
        ghost var others :=
          if Finishes(chunk) then calls + [Finished(chunk.choices[0].finishReason.value)] else [];
        ToldChunk(was, t, old(inputs), chunk, others);
        SpokenSeen(out);
        SpokenSeen(Close(n).1);
        ghost var speech := t + Spoken(out) + Spoken(Close(n).1);
        assert Finishes(chunk) ==> speech + others == speech + calls + [Finished(chunk.choices[0].finishReason.value)];
      }
    }

    /** Sends nothing if a finish was the last thing that came. */
    method Flush()
      requires Valid()
      modifies this`trace, this`inputs, normalizer
      ensures Valid() && inputs == old(inputs) + [End]
      ensures normalizer.Current() == Close(old(normalizer.Current())).0
      ensures trace == old(trace) + Spoken(Close(old(normalizer.Current())).1)
      ensures Done(fed) ==> trace == old(trace)
    {
      hide Close, Spoken, After, Done, Told;
      NothingAfterFinish(normalizer.Current());
      ghost var was := normalizer.Current();
      var rest := normalizer.Flush();
      Say(rest);
      assert trace == old(trace) + Spoken(rest);
      inputs := inputs + [End];
      ToldMore(was, old(trace), old(inputs), End, trace);
    }
  }

  /** The handler's loop, main result on speech: over the whole run the client sees the texts and the thoughts of the
      normaliser, marked as what they are, once and in order, the flushes at the finishes and at the end included. */
  method Translate(chunks: seq<StreamChunk>) returns (trace: seq<GeminiEvent>)
    ensures SeenIn(trace) == HeardBy(Run(State(START, false), Fed(chunks) + [End]).1, false)
    ensures var out := Run(State(START, false), Fed(chunks) + [End]).1;
      TextIn(SeenIn(trace)) == Strings.Concat(Contents(out)) &&
      ThoughtIn(SeenIn(trace)) == Strings.Concat(Reasonings(out))
  {
    hide After, Done, Spoken, Close;
    var translator := new GeminiStreamTranslator();
    var i := 0;
    while i < |chunks|
      invariant 0 <= i <= |chunks| && translator.Valid() && translator.inputs == Fed(chunks[..i])
      invariant fresh(translator) && fresh(translator.normalizer)
    {
      assert chunks[..i + 1][..i] == chunks[..i];
      var _ := translator.ProcessChunk(chunks[i]);
      i := i + 1;
    }
    assert chunks[..i] == chunks;
    translator.Flush();
    trace := translator.trace;
    HeardText(Run(State(START, false), Fed(chunks) + [End]).1, false);
  }

  lemma NamedOnly(b: S.Buffer, calls: seq<GeminiEvent>)
    requires multiset(calls) == multiset(Named(b))
    ensures forall i :: 0 <= i < |calls| ==> calls[i].FunctionCall?
  {
    forall i | 0 <= i < |calls| ensures calls[i].FunctionCall? {
      assert calls[i] in multiset(calls) && calls[i] in Named(b);
    }
  }

  /** Once flushed, the normaliser has nothing more to flush. */
  lemma NothingAfterFinish(n: State)
    requires n.parser.Valid()
    ensures Spoken(Close(Close(n).0).1) == []
  {
  }

  lemma DoneSnoc(chunks: seq<StreamChunk>, c: StreamChunk)
    ensures Done(chunks + [c]) <==> Finishes(c) || (c.choices == [] && Done(chunks))
  {
    assert (chunks + [c])[..|chunks|] == chunks;
  }

  lemma AfterSnoc(chunks: seq<StreamChunk>, c: StreamChunk)
    ensures Gathered(chunks + [c]) == AddFragments(After(chunks), BufferedAgreement.Fragments(c))
    ensures After(chunks + [c]) == if Finishes(c) then NO_TOOLS else Gathered(chunks + [c])
    ensures c.choices == [] ==> After(chunks + [c]) == After(chunks)
    ensures Since(chunks + [c]) == if Finishes(c) then [] else Since(chunks) + [c]
    ensures Segment(chunks + [c]) == Since(chunks) + [c] && Earlier(chunks + [c]) == Until(chunks)
  {
    assert (chunks + [c])[..|chunks|] == chunks;
  }

  // ---- Agreement with the buffered answer ----

  /** The same names and arguments under the same indices; what is empty is simply missing. */
  ghost predicate Mirrors(t: Tools, b: S.Buffer) {
    (forall i :: i in t.names <==> i in b.calls && b.calls[i].name != "") &&
    (forall i :: i in t.names ==> t.names[i] == b.calls[i].name) &&
    forall i :: ArgsOf(t, i) == if i in b.calls then b.calls[i].arguments else ""
  }

  lemma FragmentMirrors(t: Tools, b: S.Buffer, f: ToolFragment)
    requires Mirrors(t, b)
    ensures Mirrors(AddFragment(t, f), S.AddFragment(b, f))
  {
    var (t1, b1) := (AddFragment(t, f), S.AddFragment(b, f));
    assert ArgsOf(t, f.index) + "" == ArgsOf(t, f.index);
    forall i ensures ArgsOf(t1, i) == if i in b1.calls then b1.calls[i].arguments else "" {
      if i != f.index { assert ArgsOf(t1, i) == ArgsOf(t, i); }
    }
  }

  lemma {:induction false} FragmentsMirror(t: Tools, b: S.Buffer, fragments: seq<ToolFragment>)
    requires Mirrors(t, b)
    ensures Mirrors(AddFragments(t, fragments), S.AddFragments(b, fragments))
    decreases |fragments|
  {
    hide Mirrors, AddFragment, S.AddFragment;
    if fragments != [] {
      var n := |fragments| - 1;
      FragmentsMirror(t, b, fragments[..n]);
      FragmentMirrors(AddFragments(t, fragments[..n]), S.AddFragments(b, fragments[..n]), fragments[n]);
    }
  }

  lemma NothingMirrors()
    ensures Mirrors(NO_TOOLS, S.EMPTY)
  {
  }

  lemma SameMirror(t: Tools, a: S.Buffer, b: S.Buffer)
    requires Mirrors(t, a) && a.calls == b.calls
    ensures Mirrors(t, b)
  {
  }

  /** One more chunk, the maps and the buffer in step. */
  lemma ChunkMirrors(t: Tools, chunks: seq<StreamChunk>, c: StreamChunk)
    requires Mirrors(t, S.AddChunks(S.EMPTY, chunks))
    ensures Mirrors(AddFragments(t, BufferedAgreement.Fragments(c)), S.AddChunks(S.EMPTY, chunks + [c]))
  {
    hide Mirrors, AddFragments, S.AddChunk;
    assert (chunks + [c])[..|chunks|] == chunks;
    var b := S.AddChunks(S.EMPTY, chunks);
    FragmentsMirror(t, b, BufferedAgreement.Fragments(c));
    BufferedAgreement.ChunkAdds(b, b, c);
    SameMirror(AddFragments(t, BufferedAgreement.Fragments(c)), S.AddFragments(b, BufferedAgreement.Fragments(c)),
               S.AddChunk(b, c));
  }

  /** Between chunks, the maps hold the buffered answer to the chunks since the last finish. */
  lemma {:induction false} AfterMirrors(chunks: seq<StreamChunk>)
    ensures Mirrors(After(chunks), S.AddChunks(S.EMPTY, Since(chunks)))
    decreases |chunks|
  {
    hide Mirrors, AddFragments, S.AddChunk;
    NothingMirrors();
    if chunks != [] {
      var (front, c) := (chunks[..|chunks| - 1], chunks[|chunks| - 1]);
      assert chunks == front + [c];
      AfterSnoc(front, c);
      AfterMirrors(front);
      if !Finishes(c) { ChunkMirrors(After(front), Since(front), c); }
    }
  }

  /** The calls of a buffered answer that have a name. */
  function Named(b: S.Buffer): set<GeminiEvent> {
    set i | i in b.calls && b.calls[i].name != "" :: FunctionCall(i, b.calls[i].name, b.calls[i].arguments)
  }

  lemma MirrorNamed(t: Tools, b: S.Buffer)
    requires Mirrors(t, b)
    ensures Calls(t) == Named(b)
  {
    forall i | i in t.names ensures CallAt(t, i) == FunctionCall(i, b.calls[i].name, b.calls[i].arguments) {
    }
  }

  /** Main result, for every run: what a finish sends are the named calls of the buffered answer to the chunks since the
      finish before it, itself included. */
  lemma GeminiCalls(chunks: seq<StreamChunk>)
    requires chunks != []
    ensures Calls(Gathered(chunks)) == Named(S.AddChunks(S.EMPTY, Segment(chunks)))
  {
    hide After, S.AddChunks, AddFragments, Since;
    var (front, c) := (chunks[..|chunks| - 1], chunks[|chunks| - 1]);
    AfterMirrors(front);
    ChunkMirrors(After(front), Since(front), c);
    MirrorNamed(Gathered(chunks), S.AddChunks(S.EMPTY, Segment(chunks)));
  }

  // ---- Against the buffered answer to the whole run ----

  function NameIn(b: S.Buffer, index: int): string {
    if index in b.calls then b.calls[index].name else ""
  }

  function ArgumentsIn(b: S.Buffer, index: int): string {
    if index in b.calls then b.calls[index].arguments else ""
  }

  /** `all` holds what `before` and then `later` hold: later names win, arguments add up. */
  ghost predicate Merges(before: S.Buffer, later: S.Buffer, all: S.Buffer) {
    forall i ::
      NameIn(all, i) == (if NameIn(later, i) != "" then NameIn(later, i) else NameIn(before, i)) &&
      ArgumentsIn(all, i) == ArgumentsIn(before, i) + ArgumentsIn(later, i)
  }

  lemma FragmentIn(b: S.Buffer, f: ToolFragment, i: int)
    ensures var d := S.AddFragment(b, f);
      NameIn(d, i) == (if i == f.index && f.name != "" then f.name else NameIn(b, i)) &&
      ArgumentsIn(d, i) == ArgumentsIn(b, i) + if i == f.index then f.arguments else ""
  {
    assert ArgumentsIn(b, i) + "" == ArgumentsIn(b, i) && "" + f.arguments == f.arguments;
  }

  lemma FragmentMerges(before: S.Buffer, later: S.Buffer, all: S.Buffer, f: ToolFragment)
    requires Merges(before, later, all)
    ensures Merges(before, S.AddFragment(later, f), S.AddFragment(all, f))
  {
    hide NameIn, ArgumentsIn, S.AddFragment;
    var (later1, all1) := (S.AddFragment(later, f), S.AddFragment(all, f));
    forall i ensures
      NameIn(all1, i) == (if NameIn(later1, i) != "" then NameIn(later1, i) else NameIn(before, i)) &&
      ArgumentsIn(all1, i) == ArgumentsIn(before, i) + ArgumentsIn(later1, i)
    {
      FragmentIn(later, f, i);
      FragmentIn(all, f, i);
      var text := if i == f.index then f.arguments else "";
      assert ArgumentsIn(before, i) + ArgumentsIn(later, i) + text ==
        ArgumentsIn(before, i) + (ArgumentsIn(later, i) + text);
    }
  }

  lemma {:induction false} FragmentsMerge(before: S.Buffer, later: S.Buffer, all: S.Buffer,
                                          fragments: seq<ToolFragment>)
    requires Merges(before, later, all)
    ensures Merges(before, S.AddFragments(later, fragments), S.AddFragments(all, fragments))
    decreases |fragments|
  {
    hide Merges, S.AddFragment;
    if fragments != [] {
      var n := |fragments| - 1;
      FragmentsMerge(before, later, all, fragments[..n]);
      FragmentMerges(before, S.AddFragments(later, fragments[..n]), S.AddFragments(all, fragments[..n]), fragments[n]);
    }
  }

  lemma SameMerge(before: S.Buffer, later: S.Buffer, all: S.Buffer, later1: S.Buffer, all1: S.Buffer)
    requires Merges(before, later, all) && later.calls == later1.calls && all.calls == all1.calls
    ensures Merges(before, later1, all1)
  {
    assert forall i :: NameIn(later1, i) == NameIn(later, i) && ArgumentsIn(later1, i) == ArgumentsIn(later, i);
    assert forall i :: NameIn(all1, i) == NameIn(all, i) && ArgumentsIn(all1, i) == ArgumentsIn(all, i);
  }

  lemma NothingMerges(before: S.Buffer)
    ensures Merges(before, S.EMPTY, before)
  {
    forall i ensures ArgumentsIn(before, i) == ArgumentsIn(before, i) + ArgumentsIn(S.EMPTY, i) {
      assert ArgumentsIn(before, i) + "" == ArgumentsIn(before, i);
    }
  }

  lemma {:induction false} ChunksMerge(before: seq<StreamChunk>, later: seq<StreamChunk>)
    ensures Merges(S.AddChunks(S.EMPTY, before), S.AddChunks(S.EMPTY, later), S.AddChunks(S.EMPTY, before + later))
    decreases |later|
  {
    hide Merges, S.AddChunk, S.AddFragments;
    var b := S.AddChunks(S.EMPTY, before);
    if later == [] {
      assert before + later == before;
      NothingMerges(b);
    } else {
      var (front, c) := (later[..|later| - 1], later[|later| - 1]);
      assert later == front + [c] && (before + later)[..|before + later| - 1] == before + front;
      ChunksMerge(before, front);
      var (l, a) := (S.AddChunks(S.EMPTY, front), S.AddChunks(S.EMPTY, before + front));
      FragmentsMerge(b, l, a, BufferedAgreement.Fragments(c));
      BufferedAgreement.ChunkAdds(l, l, c);
      BufferedAgreement.ChunkAdds(a, a, c);
      SameMerge(b, S.AddFragments(l, BufferedAgreement.Fragments(c)), S.AddFragments(a, BufferedAgreement.Fragments(c)),
                S.AddChunk(l, c), S.AddChunk(a, c));
    }
  }

  /** What was gathered before the last finish does not show in the whole: an index named since then had no arguments
      before, and an index not named since then had no name before. */
  predicate Superseded(before: S.Buffer, later: S.Buffer) {
    forall i :: i in before.calls ==>
      if NameIn(later, i) != "" then ArgumentsIn(before, i) == "" else NameIn(before, i) == ""
  }

  lemma NamedAt(b: S.Buffer, i: int)
    ensures NameIn(b, i) != "" <==> FunctionCall(i, NameIn(b, i), ArgumentsIn(b, i)) in Named(b)
    ensures forall name, args :: FunctionCall(i, name, args) in Named(b) ==>
      name != "" && name == NameIn(b, i) && args == ArgumentsIn(b, i)
  {
  }

  lemma NamedIff(before: S.Buffer, later: S.Buffer, all: S.Buffer)
    requires Merges(before, later, all)
    ensures Named(later) == Named(all) <==> Superseded(before, later)
  {
    hide NameIn, ArgumentsIn, Named;
    if Named(later) == Named(all) {
      forall i | i in before.calls
        ensures if NameIn(later, i) != "" then ArgumentsIn(before, i) == "" else NameIn(before, i) == ""
      {
        NamedAt(later, i);
        NamedAt(all, i);
        NothingInFront(ArgumentsIn(before, i), ArgumentsIn(later, i));
      }
    }
    if Superseded(before, later) {
      forall e: GeminiEvent ensures e in Named(later) <==> e in Named(all) {
        NamedCalls(later, e);
        NamedCalls(all, e);
        if e.FunctionCall? {
          NamedAt(later, e.index);
          NamedAt(all, e.index);
          NotThere(before, e.index);
          NothingInFront(ArgumentsIn(before, e.index), ArgumentsIn(later, e.index));
        }
      }
    }
  }

  lemma NothingInFront(a: string, b: string)
    ensures a + b == b <==> a == ""
  {
    assert |a + b| == |a| + |b|;
  }

  lemma NamedCalls(b: S.Buffer, e: GeminiEvent)
    ensures e in Named(b) ==> e.FunctionCall?
  {
  }

  lemma NotThere(b: S.Buffer, i: int)
    ensures i !in b.calls ==> NameIn(b, i) == "" && ArgumentsIn(b, i) == ""
  {
  }

  lemma {:induction false} UntilSince(chunks: seq<StreamChunk>)
    ensures Until(chunks) + Since(chunks) == chunks
    decreases |chunks|
  {
    if chunks != [] && !Finishes(chunks[|chunks| - 1]) {
      var (front, c) := (chunks[..|chunks| - 1], chunks[|chunks| - 1]);
      UntilSince(front);
      assert Until(front) + (Since(front) + [c]) == Until(front) + Since(front) + [c] == chunks;
    }
  }

  /** Main result, exact: a finish sends the named calls of the buffered answer to the whole run if and only if
      everything gathered up to the finish before it is superseded. */
  lemma GeminiMatchesBufferedIff(chunks: seq<StreamChunk>)
    requires chunks != []
    ensures Calls(Gathered(chunks)) == Named(S.AddChunks(S.EMPTY, chunks)) <==>
      Superseded(S.AddChunks(S.EMPTY, Earlier(chunks)), S.AddChunks(S.EMPTY, Segment(chunks)))
  {
    hide Gathered, Calls, Named, Superseded, Merges, S.AddChunks, Until, Since;
    var (front, c) := (chunks[..|chunks| - 1], chunks[|chunks| - 1]);
    GeminiCalls(chunks);
    UntilSince(front);
    assert chunks == front + [c] && Until(front) + Since(front) + [c] == Until(front) + (Since(front) + [c]);
    ChunksMerge(Earlier(chunks), Segment(chunks));
    NamedIff(S.AddChunks(S.EMPTY, Earlier(chunks)), S.AddChunks(S.EMPTY, Segment(chunks)),
            S.AddChunks(S.EMPTY, chunks));
  }

  function Ending(fragments: seq<ToolFragment>, reason: string): StreamChunk {
    StreamChunk("", "", 0, [Choice("", "", fragments, Some(reason))], None)
  }

  lemma OneChunk(c: StreamChunk)
    ensures S.AddChunks(S.EMPTY, [c]) == S.AddChunk(S.EMPTY, c)
  {
    assert [c][..0] == [];
  }

  lemma EndingIn(fragments: seq<ToolFragment>, reason: string, i: int)
    requires |fragments| <= 1
    ensures NameIn(S.AddChunks(S.EMPTY, [Ending(fragments, reason)]), i) ==
      if fragments != [] && fragments[0].index == i then fragments[0].name else ""
  {
    hide S.AddChunks, S.AddFragment;
    OneChunk(Ending(fragments, reason));
    BufferedAgreement.ChunkAdds(S.EMPTY, S.EMPTY, Ending(fragments, reason));
    if fragments != [] {
      assert fragments[..0] == [];
      FragmentIn(S.EMPTY, fragments[0], i);
    }
  }

  /** Two finish chunks, a tool call in the first only: what the second sends is not the buffered answer to both. */
  lemma SecondFinishForgets(f: ToolFragment, reason: string)
    requires f.name != ""
    ensures var chunks := [Ending([f], reason), Ending([], reason)];
      Calls(Gathered(chunks)) != Named(S.AddChunks(S.EMPTY, chunks))
  {
    hide Gathered, Calls, Named, S.AddChunks, NameIn;
    var chunks := [Ending([f], reason), Ending([], reason)];
    assert chunks[..1] == [Ending([f], reason)];
    assert Earlier(chunks) == [Ending([f], reason)] &&
      Segment(chunks) == [] + [Ending([], reason)] == [Ending([], reason)];
    EndingIn([f], reason, f.index);
    EndingIn([], reason, f.index);
    NotThere(S.AddChunks(S.EMPTY, Earlier(chunks)), f.index);
    GeminiMatchesBufferedIff(chunks);
  }
}
