/** What a client of a translator sees, in order, and what it is due. */
module Heard {
  import opened Strings
  import opened Chunks
  import opened Options
  import opened Normalizer
  import opened StreamGuarantees
  import opened AnthropicContent

  datatype Seen = Said(s: string) | Thought(s: string) | Tool(id: string, name: string) | Args(s: string)

  /** What one chunk of speech amounts to: empty texts are nothing, nor is reasoning that the client does not want. */
  function HeardBy(out: seq<Emission>, skipThinking: bool): seq<Seen> {
    if out == [] then []
    else
      (if out[0].text == "" || (out[0].Reasoning? && skipThinking) then []
       else if out[0].Reasoning? then [Thought(out[0].text)] else [Said(out[0].text)])
      + HeardBy(out[1..], skipThinking)
  }

  /** Tool fragments: an id starts a call, arguments follow. */
  function ToolsSent(fragments: seq<ToolFragment>): seq<Seen> {
    if fragments == [] then []
    else
      (if fragments[0].id != "" then [Tool(fragments[0].id, fragments[0].name)] else [])
      + (if fragments[0].arguments != "" then [Args(fragments[0].arguments)] else [])
      + ToolsSent(fragments[1..])
  }

  /** What a whole run owes its client: chunk by chunk what the normaliser yields, then the tools; at the end the
      flush. */
  function DueIn(n: State, chunks: seq<StreamChunk>, skipThinking: bool): seq<Seen>
    requires n.parser.Valid()
    decreases chunks
  {
    if chunks == [] then HeardBy(Run(n, [End]).1, skipThinking)
    else if !Bearing(chunks[0]) then DueIn(n, chunks[1..], skipThinking)
    else
      var c := chunks[0].choices[0];
      var (n1, out) := Run(n, [Delta(c.content, c.reasoning)]);
      HeardBy(out, skipThinking) + ToolsSent(c.toolCalls) + DueIn(n1, chunks[1..], skipThinking)
  }

  function TextIn(seen: seq<Seen>): string {
    if seen == [] then "" else (if seen[0].Said? then seen[0].s else "") + TextIn(seen[1..])
  }

  function ThoughtIn(seen: seq<Seen>): string {
    if seen == [] then "" else (if seen[0].Thought? then seen[0].s else "") + ThoughtIn(seen[1..])
  }

  lemma {:induction false} SeenAppend(a: seq<Seen>, b: seq<Seen>)
    ensures TextIn(a + b) == TextIn(a) + TextIn(b) && ThoughtIn(a + b) == ThoughtIn(a) + ThoughtIn(b)
  {
    if a == [] {
      assert a + b == b;
    } else {
      assert (a + b)[1..] == a[1..] + b && (a + b)[0] == a[0];
      SeenAppend(a[1..], b);
      var (x, y) := (if a[0].Said? then a[0].s else "", if a[0].Thought? then a[0].s else "");
      Regroup(x, TextIn(a[1..]), TextIn(b));
      Regroup(y, ThoughtIn(a[1..]), ThoughtIn(b));
    }
  }

  lemma {:induction false} HeardAppend(a: seq<Emission>, b: seq<Emission>, skipThinking: bool)
    ensures HeardBy(a + b, skipThinking) == HeardBy(a, skipThinking) + HeardBy(b, skipThinking)
  {
    if a == [] {
      assert a + b == b;
    } else {
      assert (a + b)[1..] == a[1..] + b;
      HeardAppend(a[1..], b, skipThinking);
    }
  }

  lemma {:induction false} HeardText(out: seq<Emission>, skipThinking: bool)
    ensures TextIn(HeardBy(out, skipThinking)) == Concat(Contents(out))
    ensures ThoughtIn(HeardBy(out, skipThinking)) == if skipThinking then "" else Concat(Reasonings(out))
  {
    if out != [] {
      HeardText(out[1..], skipThinking);
      var e := out[0];
      SeenAppend(HeardBy([e], skipThinking), HeardBy(out[1..], skipThinking));
      HeardAppend([e], out[1..], skipThinking);
      assert out == [e] + out[1..];
      OneHeard(e, skipThinking);
      OutAppend([e], out[1..]);
      OneEmission(e);
      ConcatAppend(Contents([e]), Contents(out[1..]));
      ConcatAppend(Reasonings([e]), Reasonings(out[1..]));
      assert Concat([e.text]) == e.text + "" == e.text;
    }
  }

  lemma OneHeard(e: Emission, skipThinking: bool)
    ensures TextIn(HeardBy([e], skipThinking)) == if e.Content? then e.text else ""
    ensures ThoughtIn(HeardBy([e], skipThinking)) == if e.Reasoning? && !skipThinking then e.text else ""
  {
    assert [e][1..] == [];
    var (a, b) := (Thought(e.text), Said(e.text));
    assert [a] + [] == [a] && [b] + [] == [b] && [a][1..] == [] && [b][1..] == [];
    assert e.text + "" == e.text;
  }

  lemma {:induction false} ToolsSilent(fragments: seq<ToolFragment>)
    ensures TextIn(ToolsSent(fragments)) == "" && ThoughtIn(ToolsSent(fragments)) == ""
  {
    if fragments != [] {
      var f := fragments[0];
      ToolsSilent(fragments[1..]);
      var a := if f.id != "" then [Tool(f.id, f.name)] else [];
      var b := if f.arguments != "" then [Args(f.arguments)] else [];
      SeenAppend(a + b, ToolsSent(fragments[1..]));
      SeenAppend(a, b);
    }
  }

  /** Of a whole run: the text due is the normaliser's content, the thoughts due are its reasoning. */
  lemma {:induction false} DueText(n: State, chunks: seq<StreamChunk>, skipThinking: bool)
    requires n.parser.Valid()
    ensures var (due, out) := (DueIn(n, chunks, skipThinking), Run(n, Inputs(chunks) + [End]).1);
      TextIn(due) == Concat(Contents(out)) && ThoughtIn(due) == if skipThinking then "" else Concat(Reasonings(out))
    decreases chunks
  {
    hide HeardBy, ToolsSent, Keepalive, Step, TextIn, ThoughtIn, Concat, Contents, Reasonings;
    if chunks == [] {
      assert Inputs(chunks) + [End] == [End];
      HeardText(Run(n, [End]).1, skipThinking);
    } else if Bearing(chunks[0]) {
      var (c, rest) := (chunks[0].choices[0], chunks[1..]);
      var d := Delta(c.content, c.reasoning);
      var (n1, out) := Run(n, [d]);
      var later := Run(n1, Inputs(rest) + [End]).1;
      assert Inputs(chunks) + [End] == [d] + (Inputs(rest) + [End]);
      RunAppend(n, [d], Inputs(rest) + [End]);
      DueText(n1, rest, skipThinking);
      HeardText(out, skipThinking);
      ToolsSilent(c.toolCalls);
      SeenAppend(HeardBy(out, skipThinking) + ToolsSent(c.toolCalls), DueIn(n1, rest, skipThinking));
      SeenAppend(HeardBy(out, skipThinking), ToolsSent(c.toolCalls));
      OutAppend(out, later);
      ConcatAppend(Contents(out), Contents(later));
      ConcatAppend(Reasonings(out), Reasonings(later));
      assert Concat(Contents(out)) + "" == Concat(Contents(out));
      assert Concat(Reasonings(out)) + "" == Concat(Reasonings(out));
      assert ("" + "") + "" == "";
    } else {
      DueText(n, chunks[1..], skipThinking);
      assert Inputs(chunks) == [] + Inputs(chunks[1..]) == Inputs(chunks[1..]);
    }
  }

  /** A chunk that brings reasoning: the thought is seen first, then text alone. */
  lemma ThoughtFirst(n: State, content: string, reasoning: string)
    requires n.parser.Valid() && reasoning != ""
    ensures var heard := HeardBy(Run(n, [Delta(content, reasoning)]).1, false);
      heard != [] && heard[0] == Thought(reasoning) && forall i :: 1 <= i < |heard| ==> heard[i].Said?
  {
    hide Run, HeardBy;
    DeltaLeads(n, content, reasoning);
    var out := Run(n, [Delta(content, reasoning)]).1;
    HeardAppend([out[0]], out[1..], false);
    assert out == [out[0]] + out[1..];
    HeardReasoning(reasoning);
    HeardContents(out[1..]);
  }

  lemma HeardReasoning(text: string)
    requires text != ""
    ensures HeardBy([Reasoning(text)], false) == [Thought(text)]
  {
    assert [Reasoning(text)][1..] == [] && [Thought(text)] + [] == [Thought(text)];
  }

  lemma {:induction false} HeardContents(out: seq<Emission>)
    requires forall i :: 0 <= i < |out| ==> out[i].Content?
    ensures forall i :: 0 <= i < |HeardBy(out, false)| ==> HeardBy(out, false)[i].Said?
  {
    if out != [] { HeardContents(out[1..]); }
  }
}
