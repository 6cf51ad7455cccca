/** Which cuts do harm: a stream loses blocks exactly when a closing tag is cut that closes one. */
module CutTags {
  import opened Strings
  import opened Tags
  import opened Normalizer
  import opened Reference
  import opened Refinement
  import opened ChunkedStream

  /** No closing tag that closes a block starts in `a` and ends in `b`. */
  predicate Harmless(a: string, b: string) {
    forall j :: 0 <= j < |a| && Parse(a[..j]).inBlock ==> j + CloserLen((a + b)[j..]) <= |a|
  }

  /** No boundary between chunks falls inside a closing tag that closes a block. */
  predicate BlocksUncut(chunks: seq<string>) {
    forall n :: 0 < n <= |chunks| ==> Harmless(Concat(chunks[..n]), Concat(chunks[n..]))
  }

  // ---- The stream under harmless cuts ----

  /** No closing tag is cut while the stream is inside a block. */
  predicate WholeInside(p: Parser, pre: string, chunks: seq<string>)
    requires p.Valid()
    decreases chunks
  {
    chunks == [] ||
    ((Feed(p, chunks[0]).0.inBlock ==> Whole(pre + chunks[0], Concat(chunks[1..]))) &&
     WholeInside(Feed(p, chunks[0]).0, pre + chunks[0], chunks[1..]))
  }

  lemma AdvanceAlike(r: Parsed, p: Parser, pre: string, content: string, later: string)
    requires p.Valid() && r.inBlock == p.inBlock && r.pending == p.tagBuffer
    requires Tagless(p.openBuffer) && HasSuffix(pre, p.openBuffer)
    requires Feed(p, content).0.inBlock ==> Whole(pre + content, later)
    ensures var fed := Feed(p, content);
      Tagless(fed.0.openBuffer) && HasSuffix(pre + content, fed.0.openBuffer) &&
      Alike(Consume(r, p.openBuffer + (content + later)), Consume(After(r, fed), fed.0.openBuffer + later))
  {
    hide CloserLen, OpenerLen, Consume, Scan, Whole, Told, Kept, Blocks, Strays;
    assert p.openBuffer + (content + later) == p.openBuffer + content + later;
    FeedTail(p, content);
    var front := pre[..|pre| - |p.openBuffer|];
    assert pre + content == front + (p.openBuffer + content);
    SuffixOf(front, p.openBuffer + content, Feed(p, content).0.openBuffer);
    if content == "" {
      assert p.openBuffer + content == p.openBuffer;
      AfterNone(r, p);
    } else {
      if Whole(pre + content, later) { WholeSuffix(front, p.openBuffer + content, later); }
      Withheld(p.inBlock, p.tagBuffer, p.openBuffer + content);
      Advance(r, p.openBuffer + content, later);
    }
  }

  lemma SuffixOf(front: string, read: string, w: string)
    requires |w| <= |read| && read == read[..|read| - |w|] + w
    ensures HasSuffix(front + read, w)
  {
    assert front + read == front + read[..|read| - |w|] + w;
  }

  lemma {:induction false} StreamAlike(r: Parsed, p: Parser, pre: string, chunks: seq<string>)
    requires p.Valid() && r.inBlock == p.inBlock && r.pending == p.tagBuffer
    requires Tagless(p.openBuffer) && HasSuffix(pre, p.openBuffer) && WholeInside(p, pre, chunks)
    ensures var done := Stream(p, chunks);
      Alike(Consume(r, p.openBuffer + Concat(chunks)), After(r, done).Say(done.0.openBuffer))
    decreases chunks
  {
    hide CloserLen, OpenerLen, Consume, Scan, Whole, Feed;
    if chunks == [] {
      ParseTagless(r, p.openBuffer);
      assert p.openBuffer + Concat(chunks) == p.openBuffer;
      AfterNone(r, p);
    } else {
      var fed := Feed(p, chunks[0]);
      AdvanceAlike(r, p, pre, chunks[0], Concat(chunks[1..]));
      StreamAlike(After(r, fed), fed.0, pre + chunks[0], chunks[1..]);
      AfterAppend(r, fed, Stream(fed.0, chunks[1..]));
    }
  }

  /** The stream and the whole-text parser have found the same blocks, and are in the same mode. */
  predicate InStep(chunks: seq<string>) {
    var (p, events) := Stream(START, chunks);
    var parsed := Parse(Concat(chunks));
    parsed.blocks == Blocks(events) && parsed.pending == p.tagBuffer && parsed.inBlock == p.inBlock
  }

  lemma WholeInsideInStep(chunks: seq<string>)
    requires WholeInside(START, "", chunks)
    ensures InStep(chunks)
  {
    hide CloserLen, OpenerLen, Consume, WholeInside, Stream;
    StreamAlike(NOTHING, START, "", chunks);
    assert START.openBuffer + Concat(chunks) == Concat(chunks);
    assert [] + Blocks(Stream(START, chunks).1) == Blocks(Stream(START, chunks).1);
  }

  // ---- Where a closing tag is cut ----

  /** The beginning of a closing tag leaves the mode as it is. */
  lemma {:induction false} NoTagInside(r: Parsed, t: string)
    requires NoOpenerBefore(t, |t|) && NoCloserBefore(t, |t|)
    ensures Consume(r, t) == if r.inBlock then r.Think(t) else r.Say(t)
  {
    hide CloserLen, OpenerLen, Consume;
    if r.inBlock { SkipInside(r, t, |t|); } else { SkipOutside(r, t, |t|); }
    assert t[..|t|] == t && t[|t|..] == "";
    ConsumeNothing(r.Think(t));
    ConsumeNothing(r.Say(t));
  }

  lemma PartOfCloser(t: string, b: string)
    requires t != "" && CloserLen(t + b) > |t|
    ensures t[0] == '<' && NoOpenerBefore(t, |t|) && NoCloserBefore(t, |t|)
  {
    hide CloserLen, OpenerLen;
    var k := CloserLen(t + b);
    assert (t + b)[0] == t[0];
    CloserExtend(t, b);
    forall j | 0 <= j < |t| ensures CloserLen(t[j..]) == 0 && OpenerLen(t[j..]) == 0 {
      assert t[j..][0] == (t + b)[j];
      if j == 0 {
        assert t[0..] == t;
        OpenerSecond(t, b);
      }
    }
  }

  lemma OpenerSecond(t: string, b: string)
    requires CloserLen(t + b) > 0
    ensures OpenerLen(t) == 0
  {
    hide OpenerLen;
    OpenerHead(t);
    assert |t| > 1 ==> t[1] == (t + b)[1];
  }

  lemma OpenerHead(t: string)
    ensures OpenerLen(t) > 0 ==> |t| > 1 && t[1] == 't'
  {
  }

  /** A cut tag, seen from the parser: what it has read of the tag is text, and the mode in front of the tag still
      holds. */
  lemma AtCut(a: string, b: string, j: nat)
    requires j < |a| && j + CloserLen((a + b)[j..]) > |a|
    ensures Parse(a).inBlock == Parse(a[..j]).inBlock
    ensures Parse(a[..j]).inBlock ==> Parse(a) == Parse(a[..j]).Think(a[j..])
  {
    hide CloserLen, OpenerLen, Consume;
    assert a[j..] + b == (a + b)[j..] && a == a[..j] + a[j..];
    PartOfCloser(a[j..], b);
    CutBeforeTag(NOTHING, a[..j], a[j..]);
    NoTagInside(Parse(a[..j]), a[j..]);
  }

  lemma HarmlessInside(a: string, b: string)
    requires Harmless(a, b) && Parse(a).inBlock
    ensures Whole(a, b)
  {
    hide CloserLen, Parse;
    forall j | 0 <= j < |a| ensures j + CloserLen((a + b)[j..]) <= |a| {
      if j + CloserLen((a + b)[j..]) > |a| { AtCut(a, b, j); }
    }
  }

  lemma HarmlessPrefix(a: string, b: string, c: string)
    requires Harmless(a, b + c)
    ensures Harmless(a, b)
  {
    hide CloserLen, Parse;
    forall j | 0 <= j < |a| && Parse(a[..j]).inBlock ensures j + CloserLen((a + b)[j..]) <= |a| {
      assert (a + (b + c))[j..] == (a + b)[j..] + c;
      CloserExtend((a + b)[j..], c);
    }
  }

  // ---- From cuts in the text to cuts in the stream ----

  /** `WholeInside` of `chunks[n..]`, from what holds at each boundary. */
  lemma {:induction false} WholeFrom(chunks: seq<string>, n: nat)
    requires n <= |chunks|
    requires forall m :: n < m <= |chunks| && Stream(START, chunks[..m]).0.inBlock ==>
      Whole(Concat(chunks[..m]), Concat(chunks[m..]))
    ensures WholeInside(Stream(START, chunks[..n]).0, Concat(chunks[..n]), chunks[n..])
    decreases |chunks| - n
  {
    hide Stream, Feed, Whole, Concat;
    if n < |chunks| {
      WholeFrom(chunks, n + 1);
      assert chunks[..n + 1] == chunks[..n] + [chunks[n]];
      StreamSnoc(chunks[..n], chunks[n]);
      ConcatSnoc(chunks[..n], chunks[n]);
      assert chunks[n..][1..] == chunks[n + 1..];
    }
  }

  lemma StreamSnoc(chunks: seq<string>, c: string)
    ensures Stream(START, chunks + [c]).0 == Feed(Stream(START, chunks).0, c).0
  {
    hide Feed;
    StreamAppend(START, chunks, [c]);
    assert [c][1..] == [];
  }

  /** Every prefix keeps in step. */
  lemma {:induction false} PrefixInStep(chunks: seq<string>, n: nat)
    requires BlocksUncut(chunks) && n <= |chunks|
    ensures InStep(chunks[..n])
    decreases n
  {
    hide CloserLen, Harmless, Stream, Whole, WholeInside, Concat, InStep;
    var front := chunks[..n];
    forall m | 0 < m <= n && Stream(START, front[..m]).0.inBlock
      ensures Whole(Concat(front[..m]), Concat(front[m..]))
    {
      if m < n {
        assert front[..m] == chunks[..m];
        PrefixInStep(chunks, m);
        WholeAt(chunks, n, m);
      } else {
        assert front[n..] == [];
        NothingCut(Concat(front[..m]));
      }
    }
    WholeFrom(front, 0);
    assert front[..0] == [] && front[0..] == front;
    StreamNothing();
    WholeInsideInStep(front);
  }

  lemma StreamNothing()
    ensures Stream(START, []).0 == START && Concat([]) == ""
  {
  }

  lemma NothingCut(a: string)
    ensures Whole(a, Concat([])) && Harmless(a, Concat([]))
  {
    hide Parse, CloserLen;
    assert a + "" == a;
  }

  lemma WholeAt(chunks: seq<string>, n: nat, m: nat)
    requires 0 < m < n <= |chunks| && Harmless(Concat(chunks[..m]), Concat(chunks[m..]))
    requires InStep(chunks[..m]) && Stream(START, chunks[..m]).0.inBlock
    ensures Whole(Concat(chunks[..m]), Concat(chunks[..n][m..]))
  {
    hide CloserLen, Harmless, Stream, Whole, Parse, Concat;
    HarmlessInside(Concat(chunks[..m]), Concat(chunks[m..]));
    assert chunks[m..] == chunks[..n][m..] + chunks[n..];
    ConcatAppend(chunks[..n][m..], chunks[n..]);
    WholePrefix(Concat(chunks[..m]), Concat(chunks[..n][m..]), Concat(chunks[n..]));
  }

  // ---- The converse ----

  /** Where a closing tag that closes a block is cut, the whole-text parser closes a block that the first part leaves
      open, with the beginning of the tag in it. */
  lemma CutCloser(a: string, b: string)
    requires !Harmless(a, b)
    ensures Parse(a).inBlock
    ensures |Parse(a + b).blocks| > |Parse(a).blocks|
    ensures !(Parse(a).pending <= Parse(a + b).blocks[|Parse(a).blocks|])
  {
    hide CloserLen, OpenerLen, Parse;
    var j :| 0 <= j < |a| && Parse(a[..j]).inBlock && j + CloserLen((a + b)[j..]) > |a|;
    AtCut(a, b, j);
    ClosedBehind(a, b, j);
    assert a[j..] != "" && Parse(a).pending == Parse(a[..j]).pending + a[j..];
  }

  /** The whole-text parser closes the block there. */
  lemma ClosedBehind(a: string, b: string, j: nat)
    requires j < |a| && Parse(a[..j]).inBlock && CloserLen((a + b)[j..]) > 0
    ensures var r := Parse(a[..j]); r.blocks + [r.pending] <= Parse(a + b).blocks
  {
    hide CloserLen, OpenerLen, Consume, Inked;
    var (r, tag) := (Parse(a[..j]), (a + b)[j..]);
    assert (a + b) == a[..j] + tag;
    CutBeforeTag(NOTHING, a[..j], tag);
    TakeTag(r, tag);
    ConsumeGrows(r.Close(), tag[CloserLen(tag)..]);
  }

  lemma {:induction false} FirstHarm(chunks: seq<string>, k: nat) returns (n: nat)
    requires k <= |chunks| && exists m :: 0 < m <= k && !Harmless(Concat(chunks[..m]), Concat(chunks[m..]))
    ensures 0 < n <= k && !Harmless(Concat(chunks[..n]), Concat(chunks[n..]))
    ensures forall m :: 0 < m < n ==> Harmless(Concat(chunks[..m]), Concat(chunks[m..]))
    decreases k
  {
    hide Harmless, Concat;
    if m :| 0 < m < k && !Harmless(Concat(chunks[..m]), Concat(chunks[m..])) {
      n := FirstHarm(chunks, k - 1);
    } else {
      n := k;
    }
  }

  /** Up to the first harmful cut all is well. */
  lemma FrontUncut(chunks: seq<string>, n: nat)
    requires n <= |chunks| && forall m :: 0 < m < n ==> Harmless(Concat(chunks[..m]), Concat(chunks[m..]))
    ensures BlocksUncut(chunks[..n])
  {
    hide Harmless, Concat;
    var front := chunks[..n];
    forall m | 0 < m <= n ensures Harmless(Concat(front[..m]), Concat(front[m..])) {
      if m < n {
        assert front[..m] == chunks[..m] && chunks[m..] == front[m..] + chunks[n..];
        ConcatAppend(front[m..], chunks[n..]);
        HarmlessPrefix(Concat(front[..m]), Concat(front[m..]), Concat(chunks[n..]));
      } else {
        assert front[n..] == [];
        NothingCut(Concat(front[..m]));
      }
    }
  }

  lemma CutDiffers(chunks: seq<string>)
    requires !BlocksUncut(chunks)
    ensures Blocks(Stream(START, chunks).1) != Parse(Concat(chunks)).blocks
  {
    hide Parse, Harmless, Stream, Concat;
    var n := FirstHarm(chunks, |chunks|);
    var (a, b) := (chunks[..n], chunks[n..]);
    assert chunks == a + b;
    ConcatAppend(a, b);
    CutCloser(Concat(a), Concat(b));
    FrontUncut(chunks, n);
    PrefixInStep(a, n);
    assert a[..n] == a;
    var (p, first) := Stream(START, a);
    StreamAppend(START, a, b);
    StreamContinues(p, b);
    EventAppend(first, Stream(p, b).1);
  }

  /** Main result, the exact condition, on every text: the stream finds the right blocks if and only if no chunk
      boundary falls inside a closing tag that closes a block. */
  lemma BlocksIffUncut(chunks: seq<string>)
    ensures Blocks(Stream(START, chunks).1) == Parse(Concat(chunks)).blocks <==> BlocksUncut(chunks)
  {
    hide Parse, Stream, Concat, BlocksUncut;
    if BlocksUncut(chunks) {
      PrefixInStep(chunks, |chunks|);
      assert chunks[..|chunks|] == chunks;
    } else {
      CutDiffers(chunks);
    }
  }

  /** Without stray closing tags every closing tag closes a block, so that no closing tag at all may be cut. */
  lemma WithoutStrays(a: string, b: string)
    requires Parse(a + b).strays == 0
    ensures Harmless(a, b) <==> Whole(a, b)
  {
    hide CloserLen, OpenerLen, Consume;
    forall j | 0 <= j < |a| && j + CloserLen((a + b)[j..]) > |a| ensures Parse(a[..j]).inBlock {
      var (r, tag) := (Parse(a[..j]), (a + b)[j..]);
      assert a + b == a[..j] + tag;
      CutBeforeTag(NOTHING, a[..j], tag);
      TakeTag(r, tag);
      ConsumeGrows(r.Stray(), tag[CloserLen(tag)..]);
    }
  }
}
