/** Which text the stream throws away: what a buffer holds in front of a closing tag that closes nothing. */
module StrayText {
  import opened Strings
  import opened Tags
  import opened Normalizer
  import opened Reference
  import opened Refinement
  import opened ChunkedStream

  /** Every stray closing tag in `s` stands right at the front or right behind another tag; `front` says that nothing
      has been read since then. */
  predicate Bare(inBlock: bool, front: bool, s: string)
    decreases |s|
  {
    if s == "" then true
    else if CloserLen(s) > 0 then (inBlock || front) && Bare(false, true, s[CloserLen(s)..])
    else if !inBlock && OpenerLen(s) > 0 then Bare(true, true, s[OpenerLen(s)..])
    else Bare(inBlock, false, s[1..])
  }

  /** The same of every buffer that the stream reads: a chunk behind the text withheld before it. */
  predicate AllBare(p: Parser, chunks: seq<string>)
    requires p.Valid()
    decreases chunks
  {
    chunks == [] ||
    ((chunks[0] == "" || Bare(p.inBlock, true, p.openBuffer + chunks[0])) && AllBare(Feed(p, chunks[0]).0, chunks[1..]))
  }

  lemma {:induction false} BareSkip(inBlock: bool, front: bool, s: string, n: nat)
    requires n <= |s| && NoCloserBefore(s, n) && (inBlock || NoOpenerBefore(s, n))
    ensures Bare(inBlock, front, s) <==> Bare(inBlock, front && n == 0, s[n..])
    decreases n
  {
    hide CloserLen, OpenerLen;
    assert s[0..] == s;
    if n > 0 {
      assert forall j :: 0 <= j < n - 1 ==> s[1..][j..] == s[j + 1..];
      BareSkip(inBlock, false, s[1..], n - 1);
      assert s[1..][n - 1..] == s[n..];
    }
  }

  lemma BareTag(inBlock: bool, front: bool, s: string)
    ensures CloserLen(s) > 0 ==>
      (Bare(inBlock, front, s) <==> (inBlock || front) && Bare(false, true, s[CloserLen(s)..]))
    ensures !inBlock && OpenerLen(s) > 0 ==> (Bare(inBlock, front, s) <==> Bare(true, true, s[OpenerLen(s)..]))
  {
    hide CloserLen, OpenerLen;
  }

  lemma LosslessStep(e: Event, rest: seq<Event>)
    ensures Lossless([e] + rest) <==> (e.Lost? ==> e.s == "") && Lossless(rest)
  {
    var all := [e] + rest;
    assert all[0] == e && forall i :: 0 <= i < |rest| ==> all[i + 1] == rest[i];
    assert forall i :: 1 <= i < |all| ==> all[i] == rest[i - 1];
  }

  lemma LosslessAppend(a: seq<Event>, b: seq<Event>)
    ensures Lossless(a + b) <==> Lossless(a) && Lossless(b)
  {
    assert forall i :: 0 <= i < |a| ==> (a + b)[i] == a[i];
    assert forall i :: 0 <= i < |b| ==> (a + b)[|a| + i] == b[i];
  }

  // The branches of a scan.

  lemma ScanNothing(inBlock: bool, tagBuffer: string)
    requires !inBlock ==> tagBuffer == ""
    ensures Scan(inBlock, tagBuffer, "").1 == []
  {
  }

  lemma ScanInside(tagBuffer: string, s: string)
    requires s != ""
    ensures var (i, k) := FindClosingTag(s);
      Scan(true, tagBuffer, s).1 == if i < 0 then [] else [Block(tagBuffer + s[..i])] + Scan(false, "", s[i + k..]).1
  {
    hide FindClosingTag, FindOpeningTag, StandaloneClosingTag, HasIncompleteOpenTag;
  }

  lemma ScanStray(s: string)
    requires s != "" && StandaloneClosingTag(s).0
    ensures var (i, k) := FindClosingTag(s);
      Scan(false, "", s).1 == [Lost(s[..i])] + Scan(false, "", s[i + k..]).1
  {
    hide FindClosingTag, FindOpeningTag, StandaloneClosingTag, HasIncompleteOpenTag;
  }

  lemma ScanText(s: string)
    requires s != "" && !StandaloneClosingTag(s).0
    ensures var ((i, k), events) := (FindOpeningTag(s), Scan(false, "", s).1);
      if i < 0 then events == [] || events == [Text(s)]
      else events == (if i > 0 then [Text(s[..i])] else []) + Scan(true, "", s[i + k..]).1
  {
    hide FindClosingTag, FindOpeningTag, StandaloneClosingTag, HasIncompleteOpenTag;
  }

  lemma {:induction false} ScanBare(inBlock: bool, tagBuffer: string, s: string)
    requires !inBlock ==> tagBuffer == ""
    ensures Lossless(Scan(inBlock, tagBuffer, s).1) <==> Bare(inBlock, true, s)
    decreases |s|
  {
    hide CloserLen, OpenerLen, FindClosingTag, FindOpeningTag, StandaloneClosingTag, HasIncompleteOpenTag, Lossless,
      Bare, NoCloserBefore, NoOpenerBefore, Scan;
    NothingLost(inBlock);
    if s == "" {
      ScanNothing(inBlock, tagBuffer);
    } else if inBlock {
      ScanInside(tagBuffer, s);
      var (i, k) := FindClosingTag(s);
      if i < 0 {
        BareInside(s);
      } else {
        BareClose(true, s, i, k);
        ScanBare(false, "", s[i + k..]);
        LosslessStep(Block(tagBuffer + s[..i]), Scan(false, "", s[i + k..]).1);
      }
    } else if StandaloneClosingTag(s).0 {
      ScanStray(s);
      var (i, k) := FindClosingTag(s);
      BareClose(false, s, i, k);
      ScanBare(false, "", s[i + k..]);
      LosslessStep(Lost(s[..i]), Scan(false, "", s[i + k..]).1);
    } else {
      ScanText(s);
      BareOpen(s);
      var (i, k) := FindOpeningTag(s);
      if i >= 0 {
        ScanBare(true, "", s[i + k..]);
        LosslessStep(Text(s[..i]), Scan(true, "", s[i + k..]).1);
        assert [] + Scan(true, "", s[i + k..]).1 == Scan(true, "", s[i + k..]).1;
      } else {
        LosslessStep(Text(s), []);
        assert [Text(s)] + [] == [Text(s)];
      }
    }
  }

  lemma NothingLost(inBlock: bool)
    ensures Lossless([]) && forall front :: Bare(inBlock, front, "")
  {
  }

  lemma BareClose(inBlock: bool, s: string, i: nat, k: nat)
    requires (i, k) == FindClosingTag(s) && (inBlock || NoOpenerBefore(s, i))
    ensures Bare(inBlock, true, s) <==> (inBlock || i == 0) && Bare(false, true, s[i + k..])
  {
    hide CloserLen, OpenerLen, FindClosingTag, Bare;
    BareSkip(inBlock, true, s, i);
    BareTag(inBlock, i == 0, s[i..]);
    assert s[i..][k..] == s[i + k..];
  }

  lemma BareInside(s: string)
    requires NoCloserBefore(s, |s|)
    ensures Bare(true, true, s)
  {
    BareSkip(true, true, s, |s|);
    assert s[|s|..] == "";
  }

  lemma BareOpen(s: string)
    requires !StandaloneClosingTag(s).0
    ensures var (i, k) := FindOpeningTag(s);
      Bare(false, true, s) <==> if i < 0 then true else Bare(true, true, s[i + k..])
  {
    hide CloserLen, OpenerLen, FindOpeningTag, StandaloneClosingTag, Bare;
    var (i, k) := FindOpeningTag(s);
    NothingLost(false);
    if i < 0 {
      NoCloserAhead(s, |s|);
      BareSkip(false, true, s, |s|);
      assert s[|s|..] == "";
    } else {
      NoCloserAhead(s, i);
      BareSkip(false, true, s, i);
      BareTag(false, i == 0, s[i..]);
      assert s[i..][k..] == s[i + k..];
    }
  }

  lemma {:induction false} StreamBare(p: Parser, chunks: seq<string>)
    requires p.Valid()
    ensures Lossless(Stream(p, chunks).1) <==> AllBare(p, chunks)
    decreases chunks
  {
    hide Lossless, Bare, Scan;
    NothingLost(false);
    if chunks != [] {
      if chunks[0] != "" { ScanBare(p.inBlock, p.tagBuffer, p.openBuffer + chunks[0]); }
      var fed := Feed(p, chunks[0]);
      StreamBare(fed.0, chunks[1..]);
      LosslessAppend(fed.1, Stream(fed.0, chunks[1..]).1);
    }
  }

  /** Main result, exact: with closing tags uncut, the content sent and withheld is the whole outside text if and only
      if every stray closing tag stands at the front of the buffer it is read in, or right behind another tag there. */
  lemma ContentComplete(chunks: seq<string>)
    requires Uncut("", chunks)
    ensures var (p, events) := Stream(START, chunks);
      Texts(events) + p.openBuffer == Parse(Concat(chunks)).outside <==> AllBare(START, chunks)
  {
    hide Uncut, Parse, Lossless, AllBare, Stream;
    ContentIff(chunks);
    StreamBare(START, chunks);
  }
}
