/** Decoded chunks of an OpenAI-compatible stream (types/openai.go), reduced to the fields the translators read. */
module Chunks {
  import opened Options
  import opened Strings

  datatype Usage = Usage(promptTokens: int, completionTokens: int, totalTokens: int)

  datatype ToolFragment = ToolFragment(index: int, id: string, name: string, arguments: string)

  datatype Choice = Choice(content: string, reasoning: string, toolCalls: seq<ToolFragment>,
    finishReason: Option<string>)

  datatype StreamChunk = StreamChunk(id: string, model: string, created: int, choices: seq<Choice>,
    usage: Option<Usage>)

  predicate Keepalive(c: StreamChunk) {
    Index(c.id, "keepalive") >= 0
  }

  /** A chunk that the translators act on. */
  predicate Bearing(c: StreamChunk) {
    !Keepalive(c) && c.choices != []
  }

  /** All tool fragments that the stream translators see. */
  function AllFragments(chunks: seq<StreamChunk>): seq<ToolFragment> {
    if chunks == [] then []
    else (if Bearing(chunks[0]) then chunks[0].choices[0].toolCalls else []) + AllFragments(chunks[1..])
  }

  /** The chunk that finishes the message, if it is the first of its kind. */
  predicate Ends(c: StreamChunk) {
    Bearing(c) && c.choices[0].finishReason.Some?
  }

  /** The chunks up to and including the first finish; all of them if there is none. */
  function Upto(chunks: seq<StreamChunk>): seq<StreamChunk> {
    if chunks == [] then [] else [chunks[0]] + if Ends(chunks[0]) then [] else Upto(chunks[1..])
  }

  /** The chunks behind the first finish. */
  function Behind(chunks: seq<StreamChunk>): seq<StreamChunk> {
    if chunks == [] then [] else if Ends(chunks[0]) then chunks[1..] else Behind(chunks[1..])
  }

  predicate HasEnd(chunks: seq<StreamChunk>) {
    exists i :: 0 <= i < |chunks| && Ends(chunks[i])
  }

  lemma {:induction false} UptoBehind(chunks: seq<StreamChunk>)
    ensures Upto(chunks) + Behind(chunks) == chunks
    ensures !HasEnd(chunks) ==> Upto(chunks) == chunks && Behind(chunks) == []
  {
    hide Ends, HasEnd;
    if chunks != [] {
      UptoBehind(chunks[1..]);
      EndCons(chunks);
      CutFirst(chunks);
    }
  }

  lemma CutFirst(chunks: seq<StreamChunk>)
    requires chunks != []
    ensures var (c, later) := (chunks[0], chunks[1..]);
      chunks == [c] + later && [c] + [] == [c] &&
      [c] + Upto(later) + Behind(later) == [c] + (Upto(later) + Behind(later))
  {
    hide Upto, Behind;
  }

  lemma EndCons(chunks: seq<StreamChunk>)
    requires chunks != []
    ensures HasEnd(chunks) <==> Ends(chunks[0]) || HasEnd(chunks[1..])
  {
    hide Ends;
    if HasEnd(chunks[1..]) {
      var i :| 0 <= i < |chunks| - 1 && Ends(chunks[1..][i]);
      assert Ends(chunks[i + 1]);
    }
    if HasEnd(chunks) && !Ends(chunks[0]) {
      var i :| 0 <= i < |chunks| && Ends(chunks[i]);
      assert Ends(chunks[1..][i - 1]);
    }
  }

  lemma {:induction false} FragmentsAppend(a: seq<StreamChunk>, b: seq<StreamChunk>)
    ensures AllFragments(a + b) == AllFragments(a) + AllFragments(b)
  {
    hide Keepalive;
    if a == [] {
      assert a + b == b && [] + AllFragments(b) == AllFragments(b);
    } else {
      assert (a + b)[1..] == a[1..] + b;
      FragmentsAppend(a[1..], b);
      Associates(a[0], AllFragments(a[1..]), AllFragments(b));
    }
  }

  lemma Associates(c: StreamChunk, x: seq<ToolFragment>, y: seq<ToolFragment>)
    ensures Bearing(c) ==> c.choices[0].toolCalls + (x + y) == c.choices[0].toolCalls + x + y
    ensures [] + (x + y) == [] + x + y
  {
  }

  /** No tool call is started and no argument is sent. */
  predicate NoTools(fragments: seq<ToolFragment>) {
    forall i :: 0 <= i < |fragments| ==> fragments[i].id == "" && fragments[i].arguments == ""
  }

  lemma NoToolsAppend(a: seq<ToolFragment>, b: seq<ToolFragment>)
    ensures NoTools(a + b) <==> NoTools(a) && NoTools(b)
  {
    assert forall i :: 0 <= i < |a| ==> (a + b)[i] == a[i];
    assert forall i :: 0 <= i < |b| ==> (a + b)[|a| + i] == b[i];
  }

  /** The first chunk that is acted on. */
  function FirstBearing(chunks: seq<StreamChunk>): Option<StreamChunk> {
    if chunks == [] then None else if Bearing(chunks[0]) then Some(chunks[0]) else FirstBearing(chunks[1..])
  }

  /** The first chunk that finishes the message. */
  function FirstEnd(chunks: seq<StreamChunk>): (r: Option<StreamChunk>)
    ensures r.Some? ==> Ends(r.value)
  {
    if chunks == [] then None else if Ends(chunks[0]) then Some(chunks[0]) else FirstEnd(chunks[1..])
  }

  /** The usage of the last chunk that carries nothing else; keepalives do not count. */
  function LastUsage(chunks: seq<StreamChunk>): Option<Usage>
    decreases |chunks|
  {
    if chunks == [] then None
    else
      var last := chunks[|chunks| - 1];
      if !Keepalive(last) && last.choices == [] && last.usage.Some? then last.usage
      else LastUsage(chunks[..|chunks| - 1])
  }

  lemma {:induction false} LastUsageCons(c: StreamChunk, chunks: seq<StreamChunk>)
    ensures LastUsage([c] + chunks) ==
      if LastUsage(chunks).Some? then LastUsage(chunks) else LastUsage([c])
    decreases |chunks|
  {
    hide Keepalive;
    if chunks == [] {
      assert [c] + chunks == [c];
    } else {
      var n := |chunks| - 1;
      assert ([c] + chunks)[..n + 1] == [c] + chunks[..n];
      LastUsageCons(c, chunks[..n]);
    }
  }
}
