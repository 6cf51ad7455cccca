/** The buffered counterpart of the stream translators: accumulating all chunks into one answer
    (handler/sse_compat.go). */
module SseBuffer {
  import opened Strings
  import opened Chunks
  import opened Options

  datatype ToolCall = ToolCall(id: string, name: string, arguments: string)

  /** The accumulators of the second pass. */
  datatype Buffer = Buffer(content: string, reasoning: string, order: seq<int>, calls: map<int, ToolCall>,
                           finishReason: string, usage: Option<Usage>)

  const EMPTY := Buffer("", "", [], map[], "", None)

  function AddFragment(b: Buffer, f: ToolFragment): Buffer {
    var (order, call) :=
      if f.index in b.calls then (b.order, b.calls[f.index]) else (b.order + [f.index], ToolCall(f.id, f.name, ""));
    var merged := ToolCall(if f.id != "" then f.id else call.id, if f.name != "" then f.name else call.name,
                           call.arguments + f.arguments);
    b.(order := order, calls := b.calls[f.index := merged])
  }

  function AddFragments(b: Buffer, fragments: seq<ToolFragment>): Buffer
    decreases |fragments|
  {
    if fragments == [] then b
    else AddFragment(AddFragments(b, fragments[..|fragments| - 1]), fragments[|fragments| - 1])
  }

  function AddChunk(b: Buffer, c: StreamChunk): Buffer {
    var b1 := if c.usage.Some? then b.(usage := c.usage) else b;
    if c.choices == [] then b1
    else
      var ch := c.choices[0];
      var b2 := AddFragments(b1.(content := b1.content + ch.content, reasoning := b1.reasoning + ch.reasoning),
        ch.toolCalls);
      if ch.finishReason.Some? then b2.(finishReason := ch.finishReason.value) else b2
  }

  function AddChunks(b: Buffer, chunks: seq<StreamChunk>): Buffer
    decreases |chunks|
  {
    if chunks == [] then b else AddChunk(AddChunks(b, chunks[..|chunks| - 1]), chunks[|chunks| - 1])
  }

  /** Every call of the order list, as far as the map has it. */
  function Listed(order: seq<int>, calls: map<int, ToolCall>): seq<ToolCall> {
    if order == [] then []
    else
      Listed(order[..|order| - 1], calls)
      + if order[|order| - 1] in calls then [calls[order[|order| - 1]]] else []
  }

  datatype Answer = Answer(id: string, model: string, content: string, reasoning: string, toolCalls: seq<ToolCall>,
                           finishReason: string, usage: Option<Usage>)

  function AnswerOf(chunks: seq<StreamChunk>): Option<Answer> {
    if chunks == [] then None
    else
      var (last, b) := (chunks[|chunks| - 1], AddChunks(EMPTY, chunks));
      Some(Answer(last.id, last.model, b.content, b.reasoning, Listed(b.order, b.calls), b.finishReason, b.usage))
  }

  /** parseSSEToOpenAIResponse on the decoded chunks; `None` if there is none. */
  method ParseChunks(chunks: seq<StreamChunk>) returns (answer: Option<Answer>)
    ensures answer == AnswerOf(chunks)
  {
    hide AddFragments;
    if |chunks| == 0 {
      return None;
    }
    var b := EMPTY;
    var i := 0;
    while i < |chunks|
      invariant 0 <= i <= |chunks| && b == AddChunks(EMPTY, chunks[..i])
    {
      assert chunks[..i + 1][..i] == chunks[..i];
      var chunk := chunks[i];
      i := i + 1;
      if chunk.usage != None {
        b := b.(usage := chunk.usage);
      }
      if |chunk.choices| == 0 {
        continue;
      }
      var ch := chunk.choices[0];
      b := b.(content := b.content + ch.content);
      b := b.(reasoning := b.reasoning + ch.reasoning);
      b := Fragments(b, ch.toolCalls);
      if ch.finishReason != None {
        b := b.(finishReason := ch.finishReason.value);
      }
    }
    assert chunks[..i] == chunks;
    var toolCalls := ListCalls(b.order, b.calls);
    var last := chunks[|chunks| - 1];
    return Some(Answer(last.id, last.model, b.content, b.reasoning, toolCalls, b.finishReason, b.usage));
  }

  method Fragments(before: Buffer, fragments: seq<ToolFragment>) returns (b: Buffer)
    ensures b == AddFragments(before, fragments)
  {
    b := before;
    var i := 0;
    while i < |fragments|
      invariant 0 <= i <= |fragments| && b == AddFragments(before, fragments[..i])
    {
      assert fragments[..i + 1][..i] == fragments[..i];
      var tc := fragments[i];
      i := i + 1;
      var was := b;
      if tc.index !in b.calls {
        b := b.(order := b.order + [tc.index], calls := b.calls[tc.index := ToolCall(tc.id, tc.name, "")]);
      }
      var call := b.calls[tc.index];
      if tc.name != "" {
        call := call.(name := tc.name);
      }
      if tc.id != "" {
        call := call.(id := tc.id);
      }
      if tc.arguments != "" {
        call := call.(arguments := call.arguments + tc.arguments);
      }
      b := b.(calls := b.calls[tc.index := call]);
      assert call.arguments + "" == call.arguments;
      assert b.calls == AddFragment(was, tc).calls;
    }
    assert fragments[..i] == fragments;
  }

  method ListCalls(order: seq<int>, calls: map<int, ToolCall>) returns (list: seq<ToolCall>)
    ensures list == Listed(order, calls)
  {
    list := [];
    var i := 0;
    while i < |order|
      invariant 0 <= i <= |order| && list == Listed(order[..i], calls)
    {
      assert order[..i + 1][..i] == order[..i];
      if order[i] in calls {
        list := list + [calls[order[i]]];
      }
      i := i + 1;
    }
    assert order[..i] == order;
  }

  // ---- The fields of the answer ----

  function Usages(chunks: seq<StreamChunk>): seq<Option<Usage>> {
    seq(|chunks|, i requires 0 <= i < |chunks| => chunks[i].usage)
  }

  function Reasons(chunks: seq<StreamChunk>): seq<Option<string>> {
    seq(|chunks|, i requires 0 <= i < |chunks| =>
      if chunks[i].choices == [] then None else chunks[i].choices[0].finishReason)
  }

  lemma {:induction false} FragmentsKeepFields(b: Buffer, fragments: seq<ToolFragment>)
    ensures var d := AddFragments(b, fragments); d.finishReason == b.finishReason && d.usage == b.usage
    decreases |fragments|
  {
    if fragments != [] { FragmentsKeepFields(b, fragments[..|fragments| - 1]); }
  }

  lemma ChunkFields(b: Buffer, c: StreamChunk)
    ensures var d := AddChunk(b, c);
      d.usage == (if c.usage.Some? then c.usage else b.usage) &&
      d.finishReason ==
        if c.choices != [] && c.choices[0].finishReason.Some? then c.choices[0].finishReason.value else b.finishReason
  {
    hide AddFragments;
    if c.choices != [] {
      var ch := c.choices[0];
      var b1 := if c.usage.Some? then b.(usage := c.usage) else b;
      FragmentsKeepFields(b1.(content := b1.content + ch.content, reasoning := b1.reasoning + ch.reasoning),
      ch.toolCalls);
    }
  }

  lemma {:induction false} BufferFields(chunks: seq<StreamChunk>)
    ensures var b := AddChunks(EMPTY, chunks);
      b.usage == LastSome(Usages(chunks)) &&
      b.finishReason == if LastSome(Reasons(chunks)).Some? then LastSome(Reasons(chunks)).value else ""
    decreases |chunks|
  {
    hide AddChunk, LastSome;
    if chunks == [] {
      assert LastSome(Usages(chunks)) == None && LastSome(Reasons(chunks)) == None by { NoFields(); }
    } else {
      var n := |chunks| - 1;
      var (front, c) := (chunks[..n], chunks[n]);
      BufferFields(front);
      ChunkFields(AddChunks(EMPTY, front), c);
      assert Usages(chunks) == Usages(front) + [c.usage];
      assert Reasons(chunks) == Reasons(front) + [if c.choices == [] then None else c.choices[0].finishReason];
      LastSomeSnoc(Usages(front), c.usage);
      LastSomeSnoc(Reasons(front), if c.choices == [] then None else c.choices[0].finishReason);
    }
  }

  lemma NoFields()
    ensures LastSome(Usages([])) == None && LastSome(Reasons([])) == None
  {
  }

  /** Main result: the answer carries the id and the model of the last chunk, and the finish reason and the usage of
      the last chunk that has one. */
  lemma AnswerFields(chunks: seq<StreamChunk>)
    ensures AnswerOf(chunks).None? <==> chunks == []
    ensures chunks != [] ==>
      var (answer, last) := (AnswerOf(chunks).value, chunks[|chunks| - 1]);
      answer.id == last.id && answer.model == last.model && answer.usage == LastSome(Usages(chunks)) &&
      answer.finishReason == if LastSome(Reasons(chunks)).Some? then LastSome(Reasons(chunks)).value else ""
  {
    hide AddChunks, LastSome;
    BufferFields(chunks);
  }
}
