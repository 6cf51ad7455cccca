/** What a client of the normaliser may rely on: the end of a stream, no leaked tags, no interference. */
module StreamGuarantees {
  import opened Strings
  import opened Tags
  import opened Normalizer
  import opened Reference
  import opened Refinement
  import opened ChunkedStream

  // ---- What is still withheld ----

  lemma IncompleteSuffix(s: string, n: nat)
    requires n <= |s| && HasIncompleteOpenTag(s[n..])
    ensures HasIncompleteOpenTag(s)
  {
    hide HasIncompleteOpenTag;
    IncompleteOpenTagIff(s[n..]);
    var j :| 0 <= j < |s[n..]| && IsPartialOpener(s[n..][j..]);
    assert s[n..][j..] == s[n + j..];
    IncompleteOpenTagIff(s);
  }

  /** Adding text that does not end in an unfinished tag cannot finish an earlier start of one. */
  lemma StillComplete(t: string, s: string)
    requires !HasIncompleteOpenTag(t) && !HasIncompleteOpenTag(s)
    ensures !HasIncompleteOpenTag(t + s)
  {
    hide HasIncompleteOpenTag;
    IncompleteOpenTagIff(t);
    IncompleteOpenTagIff(s);
    IncompleteOpenTagIff(t + s);
    forall j | 0 <= j < |t + s| ensures !IsPartialOpener((t + s)[j..]) {
      if j >= |t| {
        assert (t + s)[j..] == s[j - |t|..];
      } else {
        assert (t + s)[j..] == t[j..] + s;
        PartialPrefix(t[j..], s);
      }
    }
  }

  lemma PartialPrefix(t: string, s: string)
    requires t != ""
    ensures IsPartialOpener(t + s) ==> IsPartialOpener(t)
  {
    assert (t + s)[..|t|] == t;
  }

  lemma TagIsComplete(s: string)
    requires s != "" && s[|s| - 1] == '>'
    ensures !HasIncompleteOpenTag(s)
  {
    hide HasIncompleteOpenTag;
    IncompleteOpenTagIff(s);
    forall j | 0 <= j < |s| ensures !IsPartialOpener(s[j..]) {
      assert s[j..][|s| - j - 1] == '>';
    }
  }

  /** Text `t`, then buffer `s`, scanned to `p`: seen from outside a block, the text in front of what `p`
      withholds does not end in an unfinished opening tag. */
  predicate Ready(t: string, s: string, p: Parser) {
    |p.openBuffer| <= |s| && (!p.inBlock ==> !HasIncompleteOpenTag(t + s[..|s| - |p.openBuffer|]))
  }

  lemma {:induction false} ScanReady(inBlock: bool, tagBuffer: string, t: string, s: string)
    requires (!inBlock ==> tagBuffer == "") && (!inBlock ==> !HasIncompleteOpenTag(t))
    ensures Ready(t, s, Scan(inBlock, tagBuffer, s).0)
    decreases |s|, 2
  {
    hide FindClosingTag, FindOpeningTag, StandaloneClosingTag, HasIncompleteOpenTag, OpenerLen, CloserLen, Ready;
    if s == "" {
      ReadyBase(t, s, Parser(inBlock, tagBuffer, ""));
    } else if inBlock {
      var (i, k) := FindClosingTag(s);
      if i >= 0 {
        assert s[i..][k - 1] == '>';
        ScanReadyBehind(false, t, s, i + k);
      } else {
        ReadyBase(t, s, Parser(true, tagBuffer + s, ""));
      }
    } else if StandaloneClosingTag(s).0 {
      var (i, k) := FindClosingTag(s);
      assert s[i..][k - 1] == '>';
      ScanReadyBehind(false, t, s, i + k);
    } else {
      ScanReadyOutside(t, s);
    }
  }

  lemma {:induction false} ScanReadyOutside(t: string, s: string)
    requires s != "" && !HasIncompleteOpenTag(t) && !StandaloneClosingTag(s).0
    ensures Ready(t, s, Scan(false, "", s).0)
    decreases |s|, 1
  {
    hide FindClosingTag, FindOpeningTag, StandaloneClosingTag, HasIncompleteOpenTag, OpenerLen, CloserLen, Ready;
    var (i, k) := FindOpeningTag(s);
    if i >= 0 {
      assert s[i..][k - 1] == '>';
      ScanReadyBehind(true, t, s, i + k);
    } else {
      ReadyBase(t, s, Parser(false, "", if HasIncompleteOpenTag(s) then s else ""));
    }
  }

  lemma ReadyBase(t: string, s: string, p: Parser)
    requires !p.inBlock ==> !HasIncompleteOpenTag(t)
    requires p.openBuffer == if !p.inBlock && s != "" && HasIncompleteOpenTag(s) then s else ""
    ensures Ready(t, s, p)
  {
    hide HasIncompleteOpenTag;
    assert t + s[..0] == t && s[..|s|] == s && t + "" == t;
    if !p.inBlock && s != "" && p.openBuffer == "" {
      StillComplete(t, s);
    }
  }

  lemma {:induction false} ScanReadyBehind(inBlock: bool, t: string, s: string, n: nat)
    requires 0 < n <= |s| && s[n - 1] == '>'
    ensures Ready(t, s, Scan(inBlock, "", s[n..]).0)
    decreases |s|, 0
  {
    hide Scan, HasIncompleteOpenTag;
    TagIsComplete(t + s[..n]);
    ScanReady(inBlock, "", t + s[..n], s[n..]);
    var w := Scan(inBlock, "", s[n..]).0.openBuffer;
    assert t + s[..n] + s[n..][..|s| - n - |w|] == t + s[..|s| - |w|];
  }

  /** Between chunks: `t` is the text in front of the withheld fragment. */
  predicate Between(p: Parser, t: string) {
    p.Valid() && (!p.inBlock ==> !HasIncompleteOpenTag(t)) &&
    (p.openBuffer != "" ==> HasIncompleteOpenTag(p.openBuffer))
  }

  lemma {:induction false} WithholdsFrom(p: Parser, t: string, chunks: seq<string>)
    requires Between(p, t)
    ensures var q := Stream(p, chunks).0;
      q.openBuffer != "" <==> !q.inBlock && HasIncompleteOpenTag(t + p.openBuffer + Concat(chunks))
    decreases chunks
  {
    hide Feed, HasIncompleteOpenTag;
    if chunks == [] {
      BetweenEnd(p, t);
      assert t + p.openBuffer + Concat(chunks) == t + p.openBuffer;
    } else {
      var t' := FeedReady(p, t, chunks[0]);
      WithholdsFrom(Feed(p, chunks[0]).0, t', chunks[1..]);
      assert t' + Feed(p, chunks[0]).0.openBuffer + Concat(chunks[1..]) == t + p.openBuffer + Concat(chunks);
    }
  }

  lemma BetweenEnd(p: Parser, t: string)
    requires Between(p, t)
    ensures p.openBuffer != "" <==> !p.inBlock && HasIncompleteOpenTag(t + p.openBuffer)
  {
    hide HasIncompleteOpenTag;
    if p.openBuffer != "" {
      assert (t + p.openBuffer)[|t|..] == p.openBuffer;
      IncompleteSuffix(t + p.openBuffer, |t|);
    } else {
      assert t + p.openBuffer == t;
    }
  }

  lemma FeedReady(p: Parser, t: string, content: string) returns (t': string)
    requires Between(p, t)
    ensures var q := Feed(p, content).0;
      Between(q, t') && t' + q.openBuffer == t + p.openBuffer + content
  {
    hide Scan, HasIncompleteOpenTag, Tagless;
    var read, q := p.openBuffer + content, Feed(p, content).0;
    FeedTail(p, content);
    t' := t + read[..|read| - |q.openBuffer|];
    if content == "" {
      assert t' == t && p.openBuffer + content == p.openBuffer;
    } else {
      ScanReady(p.inBlock, p.tagBuffer, t, read);
      Withheld(p.inBlock, p.tagBuffer, read);
    }
  }

  /** After any chunks at all, text is being withheld exactly when the stream is outside a block
      and the text so far ends like an unfinished opening tag. */
  lemma WithholdsIff(chunks: seq<string>)
    ensures var p := Stream(START, chunks).0;
      p.openBuffer != "" <==> !p.inBlock && HasIncompleteOpenTag(Concat(chunks))
  {
    hide Stream, HasIncompleteOpenTag;
    IncompleteOpenTagIff("");
    WithholdsFrom(START, "", chunks);
    assert "" + START.openBuffer + Concat(chunks) == Concat(chunks);
  }

  // ---- The end of a stream ----

  /** Everything a stream yields, the final flush included. */
  function Complete(chunks: seq<string>): seq<Event> {
    var (p, events) := Stream(START, chunks);
    events + Finish(p).1
  }

  /** Main result for complete streams. The flush turns an unfinished block into a block; without stray closing tags
      content is the whole outside text unless the text ends, outside a block, like an unfinished opening tag. */
  lemma CompleteStream(chunks: seq<string>)
    requires Uncut("", chunks)
    ensures var (all, parsed) := (Complete(chunks), Parse(Concat(chunks)));
      Blocks(all) == parsed.blocks + (if parsed.pending == "" then [] else [parsed.pending]) &&
      (!parsed.inBlock ==> parsed.pending == "") &&
      (parsed.strays == 0 ==>
         (Texts(all) == parsed.outside <==> parsed.inBlock || !HasIncompleteOpenTag(Concat(chunks))))
  {
    hide Uncut, Parse, Stream, HasIncompleteOpenTag, Kept, Lossless;
    var (p, events) := Stream(START, chunks);
    ChunkRefinement(chunks);
    ContentIff(chunks);
    WithholdsIff(chunks);
    EventAppend(events, Finish(p).1);
    FinishEvents(p);
    assert Texts(events) + "" == Texts(events);
    assert Blocks(events) + [] == Blocks(events);
  }

  lemma FinishEvents(p: Parser)
    requires p.Valid()
    ensures Texts(Finish(p).1) == ""
    ensures Blocks(Finish(p).1) == if p.tagBuffer == "" then [] else [p.tagBuffer]
  {
    assert [p.tagBuffer] + [] == [p.tagBuffer];
  }

  /** What is lost then is not just the fragment: a whole buffer that ends in `<` never reaches the client. */
  lemma TrailingFragmentLosesBuffer(t: string)
    requires forall i :: 0 <= i < |t| ==> t[i] != '<'
    ensures Texts(Complete([t + "<"])) == "" && Parse(Concat([t + "<"])).outside == t + "<"
  {
    hide OpenerLen, CloserLen, FindClosingTag, FindOpeningTag, StandaloneClosingTag, HasIncompleteOpenTag, Consume;
    var s := t + "<";
    LoneBracket(t);
    PlainEnd("" + s, false);
    assert "" + s == s;
    assert Concat([s]) == s + "" == s;
    ParseTagless(NOTHING, s);
    assert "" + s == s;
    assert Stream(START, [s]).0 == Parser(false, "", s);
    assert [] + [] + [] == Complete([s]);
  }

  lemma LoneBracket(t: string)
    requires forall i :: 0 <= i < |t| ==> t[i] != '<'
    ensures var s := t + "<";
      Tagless(s) && HasIncompleteOpenTag(s) && FindOpeningTag(s).0 < 0 && !StandaloneClosingTag(s).0 &&
      Scan(false, "", s) == (Parser(false, "", s), [])
  {
    hide OpenerLen, CloserLen, FindClosingTag, FindOpeningTag, StandaloneClosingTag, HasIncompleteOpenTag;
    var s := t + "<";
    forall j | 0 <= j < |s| ensures OpenerLen(s[j..]) == 0 && CloserLen(s[j..]) == 0 {
      assert j < |t| ==> s[j..][0] == t[j];
    }
    assert s[|t|..] == "<";
    assert IsPartialOpener(s[|t|..]);
    IncompleteOpenTagIff(s);
  }

  // ---- No tag leaks ----

  /** Fragments hold no complete tag, and one that ends in an unfinished opening tag is followed by a removed block,
      or by nothing while that block is still open. */
  predicate NoLeak(inBlock: bool, events: seq<Event>) {
    forall i :: 0 <= i < |events| && events[i].Text? ==>
      Tagless(events[i].s) &&
      (HasIncompleteOpenTag(events[i].s) ==> if i + 1 < |events| then events[i + 1].Block? else inBlock)
  }

  /** What starts inside a block first ends that block. */
  predicate BlockFirst(inBlock: bool, done: (Parser, seq<Event>)) {
    inBlock ==> if done.1 == [] then done.0.inBlock else done.1[0].Block?
  }

  lemma NoLeakAppend(middle: bool, first: seq<Event>, rest: (Parser, seq<Event>))
    requires NoLeak(middle, first) && NoLeak(rest.0.inBlock, rest.1) && BlockFirst(middle, rest)
    ensures NoLeak(rest.0.inBlock, first + rest.1)
  {
    hide Tagless, HasIncompleteOpenTag;
    var all := first + rest.1;
    assert forall i :: 0 <= i < |first| ==> all[i] == first[i];
    assert forall i :: 0 <= i < |rest.1| ==> all[|first| + i] == rest.1[i];
    forall i | 0 <= i < |all| && all[i].Text?
      ensures Tagless(all[i].s)
      ensures HasIncompleteOpenTag(all[i].s) && i + 1 < |all| ==> all[i + 1].Block?
      ensures HasIncompleteOpenTag(all[i].s) && i + 1 == |all| ==> rest.0.inBlock
    {
      if i < |first| {
        if HasIncompleteOpenTag(first[i].s) {
          assert i + 1 < |first| ==> first[i + 1].Block?;
          assert i + 1 == |first| ==> middle;
          assert i + 1 == |first| < |all| ==> all[i + 1] == rest.1[0];
          assert i + 1 == |all| ==> rest.1 == [];
        }
      } else {
        var j := i - |first|;
        assert all[i] == rest.1[j];
        if HasIncompleteOpenTag(rest.1[j].s) {
          assert j + 1 < |rest.1| ==> rest.1[j + 1].Block? && all[i + 1] == rest.1[j + 1];
          assert j + 1 == |rest.1| ==> rest.0.inBlock;
        }
      }
    }
  }

  lemma {:induction false} ScanNoLeak(inBlock: bool, tagBuffer: string, s: string)
    requires !inBlock ==> tagBuffer == ""
    ensures var done := Scan(inBlock, tagBuffer, s); NoLeak(done.0.inBlock, done.1) && BlockFirst(inBlock, done)
    decreases |s|
  {
    hide NoCloserBefore, NoOpenerBefore, FindClosingTag, FindOpeningTag, StandaloneClosingTag, HasIncompleteOpenTag,
      Tagless, NoLeak;
    NoLeakNone(Scan(inBlock, tagBuffer, s).0.inBlock);
    if s == "" {
    } else if inBlock {
      var (i, k) := FindClosingTag(s);
      if i >= 0 {
        ScanNoLeak(false, "", s[i + k..]);
        NoLeakOther(Block(tagBuffer + s[..i]));
        NoLeakAppend(false, [Block(tagBuffer + s[..i])], Scan(false, "", s[i + k..]));
      }
    } else if StandaloneClosingTag(s).0 {
      var n := StandaloneClosingTag(s).1;
      ScanNoLeak(false, "", s[n..]);
      NoLeakOther(Lost(s[..FindClosingTag(s).0]));
      NoLeakAppend(false, [Lost(s[..FindClosingTag(s).0])], Scan(false, "", s[n..]));
    } else {
      var (i, k) := FindOpeningTag(s);
      if i >= 0 {
        ScanNoLeak(true, "", s[i + k..]);
        NoLeakBefore(s, i);
        NoLeakAppend(true, if i > 0 then [Text(s[..i])] else [], Scan(true, "", s[i + k..]));
      } else if !HasIncompleteOpenTag(s) {
        NoLeakRest(s);
      }
    }
  }

  lemma NoLeakNone(inBlock: bool)
    ensures NoLeak(inBlock, [])
  {
  }

  lemma NoLeakOther(e: Event)
    requires !e.Text?
    ensures NoLeak(false, [e])
  {
  }

  lemma NoLeakBefore(s: string, i: nat)
    requires s != "" && !StandaloneClosingTag(s).0 && FindOpeningTag(s).0 == i
    ensures NoLeak(true, if i > 0 then [Text(s[..i])] else [])
  {
    hide CloserLen, OpenerLen, FindOpeningTag, StandaloneClosingTag, HasIncompleteOpenTag;
    NoCloserAhead(s, i);
    TaglessPrefix(s, i);
  }

  lemma TaglessPrefix(s: string, i: nat)
    requires i <= |s| && NoOpenerBefore(s, i) && NoCloserBefore(s, i)
    ensures Tagless(s[..i])
  {
    hide CloserLen, OpenerLen;
    forall j | 0 <= j < i ensures OpenerLen(s[..i][j..]) == 0 && CloserLen(s[..i][j..]) == 0 {
      assert s[j..] == s[..i][j..] + s[i..];
      OpenerExtend(s[..i][j..], s[i..]);
      CloserExtend(s[..i][j..], s[i..]);
    }
  }

  lemma NoLeakRest(s: string)
    requires s != "" && !StandaloneClosingTag(s).0 && FindOpeningTag(s).0 < 0 && !HasIncompleteOpenTag(s)
    ensures NoLeak(false, [Text(s)])
  {
    hide FindOpeningTag, StandaloneClosingTag, HasIncompleteOpenTag;
    NoCloserAhead(s, |s|);
  }

  /** Main result, for every text and every chunking. */
  lemma {:induction false} StreamNoLeak(p: Parser, chunks: seq<string>)
    requires p.Valid()
    ensures var done := Stream(p, chunks); NoLeak(done.0.inBlock, done.1) && BlockFirst(p.inBlock, done)
    decreases chunks
  {
    hide NoLeak, Scan;
    NoLeakNone(p.inBlock);
    if chunks != [] {
      var fed := Feed(p, chunks[0]);
      if chunks[0] != "" {
        ScanNoLeak(p.inBlock, p.tagBuffer, p.openBuffer + chunks[0]);
      }
      StreamNoLeak(fed.0, chunks[1..]);
      NoLeakAppend(fed.0.inBlock, fed.1, Stream(fed.0, chunks[1..]));
    }
  }

  /** So a client that joins fragments never reads an opening tag, unless a removed block lay in between. */
  lemma {:induction false} JoinedFragments(inBlock: bool, events: seq<Event>, i: nat, n: nat)
    requires NoLeak(inBlock, events) && i + n <= |events| && forall k :: i <= k < i + n ==> events[k].Text?
    ensures NoOpenerBefore(Texts(events[i..i + n]), |Texts(events[i..i + n])|)
    decreases n
  {
    hide OpenerLen, CloserLen, HasIncompleteOpenTag;
    if n > 0 {
      var f, rest := events[i].s, Texts(events[i + 1..i + n]);
      JoinedFragments(inBlock, events, i + 1, n - 1);
      assert events[i..i + n][1..] == events[i + 1..i + n];
      assert events[i + 1..i + n] == events[i + 1..i + 1 + (n - 1)];
      forall j | 0 <= j < |f + rest| ensures OpenerLen((f + rest)[j..]) == 0 {
        if j >= |f| {
          assert (f + rest)[j..] == rest[j - |f|..];
        } else {
          JoinFragment(f, rest, j);
          assert n > 1 ==> events[i + 1].Text?;
        }
      }
    }
  }

  lemma JoinFragment(f: string, rest: string, j: nat)
    requires Tagless(f) && j < |f|
    ensures OpenerLen((f + rest)[j..]) > 0 ==> HasIncompleteOpenTag(f) && rest != ""
  {
    hide OpenerLen, CloserLen, HasIncompleteOpenTag;
    assert (f + rest)[j..] == f[j..] + rest;
    OpenerExtend(f[j..], rest);
    IncompleteOpenTagIff(f);
    if rest == "" {
      assert f[j..] + rest == f[j..];
    }
  }

  // ---- A block left open ----

  lemma NoTagAt(s: string, j: nat)
    requires j < |s| && (s[j] != '<' || (j + 1 < |s| && s[j + 1] != '/'))
    ensures CloserLen(s[j..]) == 0 && (s[j] != '<' ==> OpenerLen(s[j..]) == 0)
  {
    hide CloserLen, OpenerLen;
    assert s[j..][0] == s[j];
    if j + 1 < |s| { assert s[j..][1] == s[j + 1]; }
  }

  lemma PlainInside(text: string)
    requires '<' !in text
    ensures Scan(true, "", text) == (Parser(true, text, ""), [])
  {
    hide FindClosingTag, FindOpeningTag, StandaloneClosingTag, HasIncompleteOpenTag, CloserLen, OpenerLen;
    forall j | 0 <= j < |text| ensures CloserLen(text[j..]) == 0 {
      NoTagAt(text, j);
    }
    assert "" + text == text;
  }

  lemma OpenTagFirst(s: string, text: string)
    requires s == OPEN_THINK + text && '<' !in text
    ensures FindClosingTag(s).0 < 0 && FindOpeningTag(s) == (0, 7) && s[7..] == text && s != ""
  {
    hide FindClosingTag, FindOpeningTag, CloserLen;
    assert s[0..] == s && s[..7] == OPEN_THINK && OpenerLen(s[0..]) == 7;
    assert s[0] == '<' && s[1] == 't' && forall j :: 0 < j < |s| ==> s[j] != '<';
    forall j | 0 <= j < |s| ensures CloserLen(s[j..]) == 0 && (j > 0 ==> OpenerLen(s[j..]) == 0) {
      NoTagAt(s, j);
    }
  }

  /** A buffer that holds an opening tag and plain text: the block stays open. */
  lemma OpenBlock(text: string)
    requires '<' !in text
    ensures Feed(START, OPEN_THINK + text) == (Parser(true, text, ""), [])
  {
    hide FindClosingTag, FindOpeningTag, StandaloneClosingTag, HasIncompleteOpenTag;
    var s := OPEN_THINK + text;
    OpenTagFirst(s, text);
    PlainInside(text);
    assert "" + s == s;
    var inner: seq<Event> := Scan(true, "", text).1;
    assert [] + inner == [];
    assert Scan(false, "", s) == (Parser(true, text, ""), []);
    assert Feed(START, s) == Scan(false, "", START.openBuffer + s);
  }

  // ---- Reasoning does not interfere ----

  datatype Input = Delta(content: string, reasoning: string) | End

  function Step(n: State, input: Input): (r: (State, seq<Emission>))
    requires n.parser.Valid()
    ensures r.0.parser.Valid()
  {
    match input
    case Delta(content, reasoning) => Deliver(n, content, reasoning)
    case End => Close(n)
  }

  function Run(n: State, inputs: seq<Input>): (r: (State, seq<Emission>))
    requires n.parser.Valid()
    ensures r.0.parser.Valid()
    decreases inputs
  {
    if inputs == [] then (n, [])
    else
      var (n1, first) := Step(n, inputs[0]);
      var (n2, rest) := Run(n1, inputs[1..]);
      (n2, first + rest)
  }

  lemma RunCons(n: State, content: string, reasoning: string, inputs: seq<Input>)
    requires n.parser.Valid()
    ensures var (n1, first) := Deliver(n, content, reasoning);
      Run(n, [Delta(content, reasoning)] + inputs) == (Run(n1, inputs).0, first + Run(n1, inputs).1)
  {
    hide Deliver;
    assert ([Delta(content, reasoning)] + inputs)[1..] == inputs;
  }

  lemma {:induction false} RunAppend(n: State, a: seq<Input>, b: seq<Input>)
    requires n.parser.Valid()
    ensures var (n1, first) := Run(n, a);
      Run(n, a + b) == (Run(n1, b).0, first + Run(n1, b).1)
    decreases a
  {
    hide Step;
    if a == [] {
      assert a + b == b && [] + Run(n, b).1 == Run(n, b).1;
    } else {
      assert (a + b)[1..] == a[1..] + b;
      var (n1, first) := Step(n, a[0]);
      RunAppend(n1, a[1..], b);
      assert first + (Run(n1, a[1..]).1 + Run(Run(n1, a[1..]).0, b).1) ==
        first + Run(n1, a[1..]).1 + Run(Run(n1, a[1..]).0, b).1;
    }
  }

  function Contents(out: seq<Emission>): seq<string> {
    if out == [] then [] else (if out[0].Content? then [out[0].text] else []) + Contents(out[1..])
  }

  function Reasonings(out: seq<Emission>): seq<string> {
    if out == [] then [] else (if out[0].Reasoning? then [out[0].text] else []) + Reasonings(out[1..])
  }

  lemma {:induction false} OutAppend(a: seq<Emission>, b: seq<Emission>)
    ensures Contents(a + b) == Contents(a) + Contents(b)
    ensures Reasonings(a + b) == Reasonings(a) + Reasonings(b)
  {
    if a == [] {
      assert a + b == b;
      assert [] + Contents(b) == Contents(b) && [] + Reasonings(b) == Reasonings(b);
    } else {
      assert (a + b)[1..] == a[1..] + b && (a + b)[0] == a[0];
      OutAppend(a[1..], b);
      var (c, r) := (if a[0].Content? then [a[0].text] else [], if a[0].Reasoning? then [a[0].text] else []);
      assert c + (Contents(a[1..]) + Contents(b)) == c + Contents(a[1..]) + Contents(b);
      assert r + (Reasonings(a[1..]) + Reasonings(b)) == r + Reasonings(a[1..]) + Reasonings(b);
    }
  }

  /** The non-empty reasoning arguments of a run. */
  function BackendReasoning(inputs: seq<Input>): seq<string> {
    if inputs == [] then []
    else
      (if inputs[0].Delta? && inputs[0].reasoning != "" then [inputs[0].reasoning] else [])
      + BackendReasoning(inputs[1..])
  }

  lemma {:induction false} VisibleContents(events: seq<Event>, hasReasoning: bool)
    ensures Contents(Visible(events, hasReasoning)) == Contents(Visible(events, true))
    ensures Reasonings(Visible(events, true)) == []
  {
    if events != [] {
      VisibleContents(events[1..], hasReasoning);
      OutAppend(Shown(events[0], hasReasoning), Visible(events[1..], hasReasoning));
      OutAppend(Shown(events[0], true), Visible(events[1..], true));
    }
  }

  /** Two inputs that differ in their reasoning argument at most. */
  predicate SameContent(a: Input, b: Input) {
    (a.End? <==> b.End?) && (a.Delta? ==> a.content == b.content)
  }

  lemma StepContents(n: State, m: State, a: Input, b: Input)
    requires n.parser.Valid() && n.parser == m.parser && SameContent(a, b)
    ensures Step(n, a).0.parser == Step(m, b).0.parser
    ensures Contents(Step(n, a).1) == Contents(Step(m, b).1)
  {
    hide Feed, Finish;
    var events := if a.Delta? then Feed(n.parser, a.content).1 else Finish(n.parser).1;
    ShownContents(n, a, events);
    ShownContents(m, b, events);
  }

  lemma ShownContents(n: State, a: Input, events: seq<Event>)
    requires n.parser.Valid() && events == if a.Delta? then Feed(n.parser, a.content).1 else Finish(n.parser).1
    ensures Contents(Step(n, a).1) == Contents(Visible(events, true))
    ensures n.hasReasoning ==> Reasonings(Step(n, a).1) == BackendReasoning([a])
  {
    hide Feed, Finish;
    var hasReasoning := n.hasReasoning || (a.Delta? && a.reasoning != "");
    var said := if a.Delta? && a.reasoning != "" then [Reasoning(a.reasoning)] else [];
    assert a.End? ==> [] + Visible(events, hasReasoning) == Visible(events, hasReasoning);
    assert Step(n, a).1 == said + Visible(events, hasReasoning);
    OutAppend(said, Visible(events, hasReasoning));
    VisibleContents(events, hasReasoning);
    assert said[|said|..] == [];
    assert [] + Contents(Visible(events, hasReasoning)) == Contents(Visible(events, hasReasoning));
  }

  /** Main result: content and parser state never depend on the reasoning arguments. */
  lemma {:induction false} NonInterference(n: State, m: State, a: seq<Input>, b: seq<Input>)
    requires n.parser.Valid() && n.parser == m.parser
    requires |a| == |b| && forall i :: 0 <= i < |a| ==> SameContent(a[i], b[i])
    ensures Run(n, a).0.parser == Run(m, b).0.parser
    ensures Contents(Run(n, a).1) == Contents(Run(m, b).1)
    decreases |a|
  {
    hide Step, SameContent;
    if a != [] {
      StepContents(n, m, a[0], b[0]);
      var (n1, m1) := (Step(n, a[0]).0, Step(m, b[0]).0);
      assert forall i :: 0 <= i < |a[1..]| ==> a[1..][i] == a[i + 1] && b[1..][i] == b[i + 1];
      NonInterference(n1, m1, a[1..], b[1..]);
      OutAppend(Step(n, a[0]).1, Run(n1, a[1..]).1);
      OutAppend(Step(m, b[0]).1, Run(m1, b[1..]).1);
    }
  }

  /** Main result: once the backend has sent reasoning of its own, what comes out as reasoning is what it sends. */
  lemma {:induction false} BackendReasoningWins(n: State, inputs: seq<Input>)
    requires n.parser.Valid() && n.hasReasoning
    ensures Reasonings(Run(n, inputs).1) == BackendReasoning(inputs)
    decreases inputs
  {
    hide Step;
    if inputs != [] {
      var n1 := Step(n, inputs[0]).0;
      StepKeepsReasoning(n, inputs[0]);
      ShownContents(n, inputs[0],
                    if inputs[0].Delta? then Feed(n.parser, inputs[0].content).1 else Finish(n.parser).1);
      BackendReasoningWins(n1, inputs[1..]);
      OutAppend(Step(n, inputs[0]).1, Run(n1, inputs[1..]).1);
      assert [inputs[0]][1..] == [];
    }
  }

  lemma StepKeepsReasoning(n: State, input: Input)
    requires n.parser.Valid() && n.hasReasoning
    ensures Step(n, input).0.hasReasoning
  {
    hide Feed, Finish;
  }

  // ---- The order of what comes out ----

  /** The reasoning argument of a delta comes first, and behind it content alone. */
  predicate LedBy(out: seq<Emission>, reasoning: string) {
    out != [] && out[0] == Reasoning(reasoning) && forall i :: 1 <= i < |out| ==> out[i].Content?
  }

  lemma {:induction false} SilencedIsContent(events: seq<Event>)
    ensures forall i :: 0 <= i < |Visible(events, true)| ==> Visible(events, true)[i].Content?
  {
    if events != [] { SilencedIsContent(events[1..]); }
  }

  lemma DeltaLeads(n: State, content: string, reasoning: string)
    requires n.parser.Valid() && reasoning != ""
    ensures var (n1, out) := Run(n, [Delta(content, reasoning)]);
      LedBy(out, reasoning) && n1.hasReasoning && Reasonings(out) == [reasoning]
  {
    hide Feed, Visible;
    var d := Delta(content, reasoning);
    var events := Feed(n.parser, content).1;
    RunCons(n, content, reasoning, []);
    assert [d] + [] == [d] && Run(Deliver(n, content, reasoning).0, []).1 == [];
    assert Run(n, [d]).1 == [Reasoning(reasoning)] + Visible(events, true) by {
      assert [Reasoning(reasoning)] + Visible(events, true) + [] == [Reasoning(reasoning)] + Visible(events, true);
    }
    SilencedIsContent(events);
    VisibleContents(events, true);
    OutAppend([Reasoning(reasoning)], Visible(events, true));
    OneReasoning(reasoning);
    assert [reasoning] + [] == [reasoning];
  }

  lemma OneReasoning(text: string)
    ensures Reasonings([Reasoning(text)]) == [text]
  {
    assert [Reasoning(text)][1..] == [] && [text] + [] == [text];
  }

  /** Main result, for every run: what a delta with reasoning makes come out is that reasoning first and content alone
      behind it; and from there on, that delta included, the reasoning that comes out is exactly the reasoning
      arguments. */
  lemma ReasoningLeads(n: State, before: seq<Input>, content: string, reasoning: string, after: seq<Input>)
    requires n.parser.Valid() && reasoning != ""
    ensures var d := Delta(content, reasoning);
      var (n1, earlier) := Run(n, before);
      var (n2, own) := Run(n1, [d]);
      var later := Run(n2, after).1;
      Run(n, before + [d] + after).1 == earlier + own + later && LedBy(own, reasoning) &&
      Reasonings(own + later) == [reasoning] + BackendReasoning(after)
  {
    hide Run, LedBy;
    var d := Delta(content, reasoning);
    var (n1, earlier) := Run(n, before);
    var (n2, own) := Run(n1, [d]);
    RunAppend(n, before, [d] + after);
    RunAppend(n1, [d], after);
    assert before + [d] + after == before + ([d] + after);
    assert earlier + own + Run(n2, after).1 == earlier + (own + Run(n2, after).1);
    DeltaLeads(n1, content, reasoning);
    BackendReasoningWins(n2, after);
    OutAppend(own, Run(n2, after).1);
  }

  /** What comes out, letter by letter. */
  function Voiced(out: seq<Emission>): seq<Ink> {
    if out == [] then [] else Inked(out[0].text, out[0].Reasoning?) + Voiced(out[1..])
  }

  lemma {:induction false} VoicedAppend(a: seq<Emission>, b: seq<Emission>)
    ensures Voiced(a + b) == Voiced(a) + Voiced(b)
  {
    hide Inked;
    if a == [] {
      assert a + b == b && [] + Voiced(b) == Voiced(b);
    } else {
      assert (a + b)[1..] == a[1..] + b && (a + b)[0] == a[0];
      VoicedAppend(a[1..], b);
      var ink := Inked(a[0].text, a[0].Reasoning?);
      assert ink + (Voiced(a[1..]) + Voiced(b)) == ink + Voiced(a[1..]) + Voiced(b);
    }
  }

  lemma {:induction false} VisibleVoiced(events: seq<Event>)
    requires Strays(events) == 0
    ensures Voiced(Visible(events, false)) == Told(events)
  {
    hide Inked;
    if events != [] {
      VisibleVoiced(events[1..]);
      VoicedAppend(Shown(events[0], false), Visible(events[1..], false));
      OneVoiced(events[0]);
    }
  }

  lemma OneVoiced(e: Event)
    requires !e.Lost?
    ensures Voiced(Shown(e, false)) == Inked(e.s, e.Block?)
  {
    hide Inked;
    if e.Text? { assert [Content(e.s)][1..] == [] && Inked(e.s, false) + [] == Inked(e.s, false); }
    if e.Block? { assert [Reasoning(e.s)][1..] == [] && Inked(e.s, true) + [] == Inked(e.s, true); }
  }

  /** Content deltas without any reasoning. */
  function Mute(deltas: seq<string>): seq<Input> {
    if deltas == [] then [] else [Delta(deltas[0], "")] + Mute(deltas[1..])
  }

  /** Without backend reasoning, a run of the normaliser is the stream of its content arguments. */
  lemma {:induction false} MuteIsStream(p: Parser, deltas: seq<string>)
    requires p.Valid()
    ensures Run(State(p, false), Mute(deltas)) ==
      (State(Stream(p, deltas).0, false), Visible(Stream(p, deltas).1, false))
    decreases deltas
  {
    hide Feed, Stream, Visible;
    if deltas == [] {
      NoDeltas(p);
    } else {
      var (content, rest) := (deltas[0], deltas[1..]);
      var (p1, first) := Feed(p, content);
      MuteIsStream(p1, rest);
      RunCons(State(p, false), content, "", Mute(rest));
      OneDelta(p, content, rest);
      assert deltas == [content] + rest && [] + Visible(first, false) == Visible(first, false);
      VisibleAppend(first, Stream(p1, rest).1);
    }
  }

  lemma NoDeltas(p: Parser)
    requires p.Valid()
    ensures Stream(p, []) == (p, []) && Visible([], false) == []
  {
  }

  lemma OneDelta(p: Parser, content: string, rest: seq<string>)
    requires p.Valid()
    ensures var (p1, first) := Feed(p, content);
      Stream(p, [content] + rest) == (Stream(p1, rest).0, first + Stream(p1, rest).1)
  {
    hide Feed;
    assert ([content] + rest)[1..] == rest;
  }

  lemma {:induction false} VisibleAppend(a: seq<Event>, b: seq<Event>)
    ensures Visible(a + b, false) == Visible(a, false) + Visible(b, false)
    decreases |a|
  {
    if a == [] {
      assert a + b == b;
    } else {
      assert (a + b)[1..] == a[1..] + b;
      VisibleAppend(a[1..], b);
    }
  }

  /** Main result on order: without backend reasoning, if no closing tag is cut and none is stray, what comes out,
      content and reasoning in one, spells the text in the order in which the whole-text parser reads it, but for what
      is withheld at the end outside a block. */
  lemma InOrder(deltas: seq<string>)
    requires Uncut("", deltas) && Parse(Concat(deltas)).strays == 0
    ensures var (n, out) := Run(State(START, false), Mute(deltas));
      Voiced(out) + Inked(n.parser.openBuffer, false) == Parse(Concat(deltas)).told
  {
    hide Uncut, Parse, Stream, Visible, Run, Inked;
    MuteIsStream(START, deltas);
    ChunkRefinement(deltas);
    VisibleVoiced(Stream(START, deltas).1);
  }
}
