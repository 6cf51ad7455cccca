/** Whole streams: any text, any cutting into chunks. */
module ChunkedStream {
  import opened Strings
  import opened Tags
  import opened Normalizer
  import opened Reference
  import opened Refinement

  function Stream(p: Parser, chunks: seq<string>): (r: (Parser, seq<Event>))
    requires p.Valid()
    ensures r.0.Valid()
    decreases chunks
  {
    if chunks == [] then (p, [])
    else
      var (p1, first) := Feed(p, chunks[0]);
      var (p2, rest) := Stream(p1, chunks[1..]);
      (p2, first + rest)
  }

  /** No boundary between chunks falls inside a closing tag; `pre` is the text already read. */
  predicate Uncut(pre: string, chunks: seq<string>)
    decreases chunks
  {
    chunks == [] || (Whole(pre + chunks[0], Concat(chunks[1..])) && Uncut(pre + chunks[0], chunks[1..]))
  }

  lemma {:induction false} UncutSuffix(a: string, b: string, chunks: seq<string>)
    requires Uncut(a + b, chunks)
    ensures Uncut(b, chunks)
    decreases chunks
  {
    hide Whole;
    if chunks != [] {
      assert a + b + chunks[0] == a + (b + chunks[0]);
      WholeSuffix(a, b + chunks[0], Concat(chunks[1..]));
      UncutSuffix(a, b + chunks[0], chunks[1..]);
    }
  }

  predicate Tagless(s: string) {
    NoOpenerBefore(s, |s|) && NoCloserBefore(s, |s|)
  }

  /** `w` is the end of `s`, holds no complete tag, and ends like an unfinished opening tag unless it is empty. */
  predicate WithheldFrom(s: string, w: string) {
    HasSuffix(s, w) && Tagless(w) && (w != "" ==> HasIncompleteOpenTag(w))
  }

  lemma {:induction false} Withheld(inBlock: bool, tagBuffer: string, s: string)
    requires !inBlock ==> tagBuffer == ""
    ensures WithheldFrom(s, Scan(inBlock, tagBuffer, s).0.openBuffer)
    decreases |s|
  {
    hide FindClosingTag, FindOpeningTag, StandaloneClosingTag, HasIncompleteOpenTag, WithheldFrom;
    WithheldBase(s);
    if s == "" {
    } else if inBlock {
      var (i, k) := FindClosingTag(s);
      if i >= 0 {
        Withheld(false, "", s[i + k..]);
        WithheldLonger(s, i + k, Scan(false, "", s[i + k..]).0.openBuffer);
      }
    } else if StandaloneClosingTag(s).0 {
      var n := StandaloneClosingTag(s).1;
      Withheld(false, "", s[n..]);
      WithheldLonger(s, n, Scan(false, "", s[n..]).0.openBuffer);
    } else {
      var (i, k) := FindOpeningTag(s);
      if i >= 0 {
        Withheld(true, "", s[i + k..]);
        WithheldLonger(s, i + k, Scan(true, "", s[i + k..]).0.openBuffer);
      } else {
        NoCloserAhead(s, |s|);
      }
    }
  }

  lemma WithheldLonger(s: string, n: nat, w: string)
    requires n <= |s| && WithheldFrom(s[n..], w)
    ensures WithheldFrom(s, w)
  {
    assert s[n..][|s| - n - |w|..] == s[|s| - |w|..];
  }

  lemma WithheldBase(s: string)
    ensures WithheldFrom(s, "")
    ensures Tagless(s) && HasIncompleteOpenTag(s) ==> WithheldFrom(s, s)
  {
    assert s[|s|..] == "" && s[0..] == s;
  }

  /** One chunk, with the withheld fragment in front and the later chunks in view. */
  lemma AdvanceChunk(r: Parsed, p: Parser, content: string, later: string)
    requires p.Valid() && r.inBlock == p.inBlock && r.pending == p.tagBuffer
    requires Tagless(p.openBuffer) && Whole(p.openBuffer + content, later)
    ensures var fed := Feed(p, content);
      Tagless(fed.0.openBuffer) &&
      Consume(r, p.openBuffer + (content + later)) == Consume(After(r, fed), fed.0.openBuffer + later)
  {
    hide CloserLen, OpenerLen, Consume, Scan, Whole;
    assert p.openBuffer + (content + later) == p.openBuffer + content + later;
    if content == "" {
      assert p.openBuffer + content == p.openBuffer;
      AfterNone(r, p);
    } else {
      Withheld(p.inBlock, p.tagBuffer, p.openBuffer + content);
      Advance(r, p.openBuffer + content, later);
    }
  }

  lemma AfterAppend(r: Parsed, first: (Parser, seq<Event>), rest: (Parser, seq<Event>))
    ensures After(After(r, first), rest) == After(r, (rest.0, first.1 + rest.1))
  {
    hide Kept, Blocks, Strays, Told;
    EventAppend(first.1, rest.1);
    assert r.told + Told(first.1) + Told(rest.1) == r.told + (Told(first.1) + Told(rest.1));
    assert r.outside + Kept(first.1) + Kept(rest.1) == r.outside + (Kept(first.1) + Kept(rest.1));
    assert r.blocks + Blocks(first.1) + Blocks(rest.1) == r.blocks + (Blocks(first.1) + Blocks(rest.1));
  }

  lemma {:induction false} StreamRefines(r: Parsed, p: Parser, chunks: seq<string>)
    requires p.Valid() && r.inBlock == p.inBlock && r.pending == p.tagBuffer
    requires Tagless(p.openBuffer) && Uncut(p.openBuffer, chunks)
    ensures var done := Stream(p, chunks);
      Consume(r, p.openBuffer + Concat(chunks)) == After(r, done).Say(done.0.openBuffer)
    decreases chunks
  {
    hide CloserLen, OpenerLen, Consume, Scan, Whole, Feed;
    if chunks == [] {
      ParseTagless(r, p.openBuffer);
      assert p.openBuffer + Concat(chunks) == p.openBuffer;
      AfterNone(r, p);
    } else {
      var fed := Feed(p, chunks[0]);
      AdvanceChunk(r, p, chunks[0], Concat(chunks[1..]));
      FeedTail(p, chunks[0]);
      var read := p.openBuffer + chunks[0];
      UncutSuffix(read[..|read| - |fed.0.openBuffer|], fed.0.openBuffer, chunks[1..]);
      StreamRefines(After(r, fed), fed.0, chunks[1..]);
      AfterAppend(r, fed, Stream(fed.0, chunks[1..]));
    }
  }

  lemma FeedTail(p: Parser, content: string)
    requires p.Valid()
    ensures var (read, w) := (p.openBuffer + content, Feed(p, content).0.openBuffer);
      |w| <= |read| && read == read[..|read| - |w|] + w
  {
    hide CloserLen, OpenerLen, Scan;
    assert p.openBuffer + "" == p.openBuffer;
    Withheld(p.inBlock, p.tagBuffer, p.openBuffer + content);
  }

  lemma ParseTagless(r: Parsed, s: string)
    requires Tagless(s) && r.Valid() && (s == "" || !r.inBlock)
    ensures Consume(r, s) == r.Say(s)
  {
    hide CloserLen, OpenerLen, Consume;
    if s != "" {
      SkipOutside(r, s, |s|);
      assert s[..|s|] == s && s[|s|..] == "";
    } else {
      SayNothing(r);
    }
    ConsumeNothing(r.Say(s));
  }

  lemma ConsumeNothing(r: Parsed)
    ensures Consume(r, "") == r
  {
  }

  /** Main result. If no chunk boundary falls inside a closing tag, then, wherever opening tags are cut, the stream
      holds exactly what the whole-text parser finds: the same blocks, the same open block, the same mode, the same
      number of stray closing tags, and the same outside text once withheld and discarded text is put back; and all
      of it in the order of the source. */
  lemma ChunkRefinement(chunks: seq<string>)
    requires Uncut("", chunks)
    ensures var (p, events) := Stream(START, chunks);
      Parse(Concat(chunks)) ==
        Parsed(Kept(events) + p.openBuffer, Blocks(events), p.tagBuffer, p.inBlock, Strays(events),
               Told(events) + Inked(p.openBuffer, false))
  {
    hide CloserLen, OpenerLen, Consume, Uncut, Stream, After;
    StreamRefines(NOTHING, START, chunks);
    assert START.openBuffer + Concat(chunks) == Concat(chunks);
    AfterNothing(Stream(START, chunks));
  }

  lemma AfterNothing(done: (Parser, seq<Event>))
    ensures After(NOTHING, done).Say(done.0.openBuffer) ==
      Parsed(Kept(done.1) + done.0.openBuffer, Blocks(done.1), done.0.tagBuffer, done.0.inBlock, Strays(done.1),
             Told(done.1) + Inked(done.0.openBuffer, false))
  {
    hide Kept, Blocks, Strays, Told;
    assert [] + Told(done.1) == Told(done.1);
    assert "" + Kept(done.1) == Kept(done.1);
    assert [] + Blocks(done.1) == Blocks(done.1);
  }

  lemma {:induction false} DiscardedLength(events: seq<Event>)
    ensures |Texts(events)| <= |Kept(events)|
    ensures |Texts(events)| == |Kept(events)| <==> Lossless(events)
    ensures Lossless(events) ==> Texts(events) == Kept(events)
    ensures Strays(events) == 0 ==> Lossless(events)
  {
    if events != [] {
      DiscardedLength(events[1..]);
      assert forall i :: 1 <= i < |events| ==> events[i] == events[1..][i - 1];
      assert forall i :: 0 <= i < |events| - 1 ==> events[1..][i] == events[i + 1];
    }
  }

  /** Content is complete exactly when every stray closing tag came with nothing in front of it in its buffer;
      in particular whenever the text has no stray closing tag. */
  lemma ContentIff(chunks: seq<string>)
    requires Uncut("", chunks)
    ensures var (p, events) := Stream(START, chunks);
      (Texts(events) + p.openBuffer == Parse(Concat(chunks)).outside <==> Lossless(events)) &&
      (Parse(Concat(chunks)).strays == 0 ==> Lossless(events))
  {
    hide CloserLen, OpenerLen, Consume, Uncut, Parse, Lossless;
    ChunkRefinement(chunks);
    DiscardedLength(Stream(START, chunks).1);
  }

  // What a stream keeps, cut as it may be.

  lemma WholePrefix(a: string, b: string, c: string)
    requires Whole(a, b + c)
    ensures Whole(a, b)
  {
    hide CloserLen;
    forall j | 0 <= j < |a| ensures j + CloserLen((a + b)[j..]) <= |a| {
      assert (a + (b + c))[j..] == (a + b)[j..] + c;
      CloserExtend((a + b)[j..], c);
    }
  }

  lemma {:induction false} StreamAppend(p: Parser, a: seq<string>, b: seq<string>)
    requires p.Valid()
    ensures var (p1, first) := Stream(p, a);
      Stream(p, a + b) == (Stream(p1, b).0, first + Stream(p1, b).1)
    decreases a
  {
    hide Feed;
    if a == [] {
      assert a + b == b;
      assert [] + Stream(p, b).1 == Stream(p, b).1;
    } else {
      var (p0, e0) := Feed(p, a[0]);
      assert (a + b)[1..] == a[1..] + b && (a + b)[0] == a[0];
      StreamAppend(p0, a[1..], b);
      var (p1, e1) := Stream(p0, a[1..]);
      assert e0 + (e1 + Stream(p1, b).1) == e0 + e1 + Stream(p1, b).1;
    }
  }

  /** The text of an open block stays at the front of that block, whatever follows. */
  predicate Continues(before: string, done: (Parser, seq<Event>)) {
    if Blocks(done.1) == [] then done.0.inBlock && before <= done.0.tagBuffer
    else before <= Blocks(done.1)[0]
  }

  lemma {:induction false} StreamContinues(p: Parser, chunks: seq<string>)
    requires p.Valid() && p.inBlock
    ensures Continues(p.tagBuffer, Stream(p, chunks))
    decreases chunks
  {
    hide FindClosingTag, Scan;
    if chunks != [] {
      var fed := Feed(p, chunks[0]);
      FeedContinues(p, chunks[0]);
      var rest := Stream(fed.0, chunks[1..]);
      EventAppend(fed.1, rest.1);
      if Blocks(fed.1) == [] {
        StreamContinues(fed.0, chunks[1..]);
        assert [] + Blocks(rest.1) == Blocks(rest.1);
      }
    }
  }

  lemma FeedContinues(p: Parser, content: string)
    requires p.Valid() && p.inBlock
    ensures Continues(p.tagBuffer, Feed(p, content))
  {
    hide FindClosingTag, FindOpeningTag, StandaloneClosingTag, HasIncompleteOpenTag;
    assert "" + content == content;
    if content != "" {
      var (i, k) := FindClosingTag(content);
      if i >= 0 {
        EventStep(Block(p.tagBuffer + content[..i]), Scan(false, "", content[i + k..]).1);
      }
    }
  }
}
