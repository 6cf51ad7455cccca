/** The incremental normaliser computes what the whole-text parser computes. */
module Refinement {
  import opened Strings
  import opened Tags
  import opened Normalizer
  import opened Reference

  /** Text found outside blocks, thrown away or not. */
  function Kept(events: seq<Event>): string {
    if events == [] then ""
    else (if events[0].Block? then "" else events[0].s) + Kept(events[1..])
  }

  /** Text actually passed on as content. */
  function Texts(events: seq<Event>): string {
    if events == [] then ""
    else (if events[0].Text? then events[0].s else "") + Texts(events[1..])
  }

  function Blocks(events: seq<Event>): seq<string> {
    if events == [] then []
    else (if events[0].Block? then [events[0].s] else []) + Blocks(events[1..])
  }

  /** All of it, thrown away or not, letter by letter. */
  function Told(events: seq<Event>): seq<Ink> {
    if events == [] then [] else Inked(events[0].s, events[0].Block?) + Told(events[1..])
  }

  /** How many closing tags closed nothing. */
  function Strays(events: seq<Event>): nat {
    if events == [] then 0 else (if events[0].Lost? then 1 else 0) + Strays(events[1..])
  }

  /** No text is thrown away with a stray closing tag. */
  predicate Lossless(events: seq<Event>) {
    forall i :: 0 <= i < |events| && events[i].Lost? ==> events[i].s == ""
  }

  lemma EventStep(e: Event, rest: seq<Event>)
    ensures Kept([e] + rest) == (if e.Block? then "" else e.s) + Kept(rest)
    ensures Texts([e] + rest) == (if e.Text? then e.s else "") + Texts(rest)
    ensures Blocks([e] + rest) == (if e.Block? then [e.s] else []) + Blocks(rest)
    ensures Strays([e] + rest) == (if e.Lost? then 1 else 0) + Strays(rest)
    ensures Told([e] + rest) == Inked(e.s, e.Block?) + Told(rest)
  {
    assert ([e] + rest)[1..] == rest;
  }

  lemma {:induction false} EventAppend(a: seq<Event>, b: seq<Event>)
    ensures Kept(a + b) == Kept(a) + Kept(b)
    ensures Texts(a + b) == Texts(a) + Texts(b)
    ensures Blocks(a + b) == Blocks(a) + Blocks(b)
    ensures Strays(a + b) == Strays(a) + Strays(b)
    ensures Told(a + b) == Told(a) + Told(b)
  {
    hide Kept, Texts, Blocks, Strays, Told, Inked;
    if a == [] {
      EventNone();
      assert a + b == b;
      assert "" + Kept(b) == Kept(b) && "" + Texts(b) == Texts(b) && [] + Blocks(b) == Blocks(b);
      assert [] + Told(b) == Told(b);
    } else {
      var e, rest := a[0], a[1..];
      assert a + b == [e] + (rest + b) && a == [e] + rest;
      EventStep(e, rest);
      EventStep(e, rest + b);
      EventAppend(rest, b);
      assert (if e.Block? then "" else e.s) + (Kept(rest) + Kept(b)) == Kept(a) + Kept(b);
      assert (if e.Text? then e.s else "") + (Texts(rest) + Texts(b)) == Texts(a) + Texts(b);
      assert (if e.Block? then [e.s] else []) + (Blocks(rest) + Blocks(b)) == Blocks(a) + Blocks(b);
      assert Inked(e.s, e.Block?) + (Told(rest) + Told(b)) == Told(a) + Told(b);
    }
  }

  lemma EventNone()
    ensures Kept([]) == "" && Texts([]) == "" && Blocks([]) == [] && Strays([]) == 0 && Told([]) == []
  {
  }

  /** The whole-text parser after the events of a scan; text withheld in `openBuffer` is still unread. */
  function After(r: Parsed, scanned: (Parser, seq<Event>)): Parsed {
    Parsed(r.outside + Kept(scanned.1), r.blocks + Blocks(scanned.1), scanned.0.tagBuffer, scanned.0.inBlock,
           r.strays + Strays(scanned.1), r.told + Told(scanned.1))
  }

  /** No closing tag starts in `a` and ends in `b`. */
  predicate Whole(a: string, b: string) {
    forall j :: 0 <= j < |a| ==> j + CloserLen((a + b)[j..]) <= |a|
  }

  lemma WholeSuffix(a: string, b: string, rest: string)
    requires Whole(a + b, rest)
    ensures Whole(b, rest)
  {
    hide CloserLen;
    forall j | 0 <= j < |b| ensures j + CloserLen((b + rest)[j..]) <= |b| {
      assert (a + b + rest)[|a| + j..] == (b + rest)[j..];
    }
  }

  lemma WholeClosers(s: string, rest: string, j: nat)
    requires Whole(s, rest) && j < |s|
    ensures CloserLen((s + rest)[j..]) == CloserLen(s[j..])
  {
    hide CloserLen;
    assert (s + rest)[j..] == s[j..] + rest;
    CloserExtend(s[j..], rest);
  }

  lemma WholeNoCloser(s: string, rest: string, n: nat)
    requires Whole(s, rest) && n <= |s| && NoCloserBefore(s, n)
    ensures NoCloserBefore(s + rest, n)
  {
    hide CloserLen;
    forall j | 0 <= j < n ensures CloserLen((s + rest)[j..]) == 0 {
      WholeClosers(s, rest, j);
    }
  }

  /** A closing tag that only a later chunk completes starts at the last `<` of the buffer. */
  lemma NoCloserCompleted(s: string, rest: string, n: nat)
    requires n < |s| && s[n] == '<' && NoCloserBefore(s, n)
    ensures NoCloserBefore(s + rest, n)
  {
    hide CloserLen;
    forall j | 0 <= j < n ensures CloserLen((s + rest)[j..]) == 0 {
      assert (s + rest)[j..] == s[j..] + rest;
      CloserExtend(s[j..], rest);
      assert (s[j..] + rest)[n - j] == '<';
    }
  }

  /** An opening tag that only a later chunk completes starts in the last fragment of the buffer. */
  lemma NoOpenerCompleted(s: string, rest: string, n: nat)
    requires n <= |s| && NoOpenerBefore(s, n)
    requires n == |s| ==> !HasIncompleteOpenTag(s)
    requires n < |s| ==> s[n] == '<'
    ensures NoOpenerBefore(s + rest, n)
  {
    hide OpenerLen, HasIncompleteOpenTag;
    forall j | 0 <= j < n ensures OpenerLen((s + rest)[j..]) == 0 {
      assert (s + rest)[j..] == s[j..] + rest;
      OpenerExtend(s[j..], rest);
      if OpenerLen((s + rest)[j..]) > 0 {
        IncompleteOpenTagIff(s);
        assert s[j..][n - j..] == s[n..];
        PartialOpenerHead(s[j..], n - j);
      }
    }
  }

  lemma PartialOpenerHead(t: string, k: nat)
    requires IsPartialOpener(t) && 0 < k < |t|
    ensures t[k] != '<'
  {
    assert t < OPEN_THINK ==> t[k] == OPEN_THINK[k];
    assert t < OPEN_THINKING ==> t[k] == OPEN_THINKING[k];
  }

  lemma AfterText(r: Parsed, text: string, next: (Parser, seq<Event>))
    ensures After(r, (next.0, [Text(text)] + next.1)) == After(r.Say(text), next)
  {
    EventStep(Text(text), next.1);
    assert r.told + (Inked(text, false) + Told(next.1)) == r.told + Inked(text, false) + Told(next.1);
    assert r.outside + (text + Kept(next.1)) == r.outside + text + Kept(next.1);
    assert r.blocks + ([] + Blocks(next.1)) == r.blocks + Blocks(next.1);
  }

  lemma AfterLost(r: Parsed, text: string, next: (Parser, seq<Event>))
    ensures After(r, (next.0, [Lost(text)] + next.1)) ==
            After(r.Say(text).Stray(), next)
  {
    EventStep(Lost(text), next.1);
    assert r.told + (Inked(text, false) + Told(next.1)) == r.told + Inked(text, false) + Told(next.1);
    assert r.outside + (text + Kept(next.1)) == r.outside + text + Kept(next.1);
    assert r.blocks + ([] + Blocks(next.1)) == r.blocks + Blocks(next.1);
  }

  lemma AfterBlock(r: Parsed, text: string, next: (Parser, seq<Event>))
    ensures After(r, (next.0, [Block(r.pending + text)] + next.1)) == After(r.Think(text).Close(), next)
  {
    EventStep(Block(r.pending + text), next.1);
    var ink := Inked(r.pending + text, true);
    assert r.told + (ink + Told(next.1)) == r.told + ink + Told(next.1);
    assert r.outside + ("" + Kept(next.1)) == r.outside + Kept(next.1);
    assert r.blocks + ([r.pending + text] + Blocks(next.1)) == r.blocks + [r.pending + text] + Blocks(next.1);
  }

  // The whole-text parser over one step of the scan, with the text of later chunks in view.

  lemma AdvanceClose(r: Parsed, s: string, rest: string)
    requires r.inBlock && FindClosingTag(s).0 >= 0
    ensures var (i, k) := FindClosingTag(s);
      Consume(r, s + rest) == Consume(r.Think(s[..i]).Close(), s[i + k..] + rest)
  {
    hide Consume, CloserLen, OpenerLen, FindClosingTag;
    var (i, k) := FindClosingTag(s);
    assert s[i] == s[i..][0];
    NoCloserCompleted(s, rest, i);
    assert (s + rest)[i..] == s[i..] + rest;
    CloserExtend(s[i..], rest);
    SkipInside(r, s + rest, i);
    assert (s + rest)[..i] == s[..i];
    assert (s + rest)[i..][k..] == s[i + k..] + rest;
    TakeTag(r.Think(s[..i]), (s + rest)[i..]);
  }

  lemma AdvanceStray(r: Parsed, s: string, rest: string)
    requires !r.inBlock
    requires FindClosingTag(s).0 >= 0 && NoOpenerBefore(s, FindClosingTag(s).0)
    ensures var (i, k) := FindClosingTag(s);
      Consume(r, s + rest) ==
        Consume(r.Say(s[..i]).Stray(), s[i + k..] + rest)
  {
    hide Consume, CloserLen, OpenerLen, FindClosingTag, StandaloneClosingTag;
    var (i, k) := FindClosingTag(s);
    assert s[i] == s[i..][0];
    assert NoOpenerBefore(s + rest, i) by { NoOpenerCompleted(s, rest, i); }
    assert NoCloserBefore(s + rest, i) by { NoCloserCompleted(s, rest, i); }
    SkipOutside(r, s + rest, i);
    assert (s + rest)[..i] == s[..i];
    assert (s + rest)[i..] == s[i..] + rest;
    CloserExtend(s[i..], rest);
    TakeTag(r.Say(s[..i]), s[i..] + rest);
    assert (s[i..] + rest)[k..] == s[i + k..] + rest;
  }

  lemma AdvanceOpen(r: Parsed, s: string, rest: string)
    requires !r.inBlock && r.pending == ""
    requires !StandaloneClosingTag(s).0 && FindOpeningTag(s).0 >= 0
    ensures var (i, k) := FindOpeningTag(s);
      Consume(r, s + rest) == Consume(r.Say(s[..i]).Open(), s[i + k..] + rest)
  {
    hide Consume, CloserLen, OpenerLen, FindClosingTag, FindOpeningTag, StandaloneClosingTag, Inked;
    var (i, k) := FindOpeningTag(s);
    assert s[i] == s[i..][0];
    NoCloserAhead(s, i);
    NoCloserCompleted(s, rest, i);
    NoOpenerCompleted(s, rest, i);
    SkipOutside(r, s + rest, i);
    assert (s + rest)[..i] == s[..i];
    assert (s + rest)[i..] == s[i..] + rest;
    OpenerExtend(s[i..], rest);
    TakeTag(r.Say(s[..i]), s[i..] + rest);
    assert (s[i..] + rest)[k..] == s[i + k..] + rest;
  }

  /** Outside a block, no closing tag comes before the first opening tag unless it is a stray one. */
  lemma NoCloserAhead(s: string, n: nat)
    requires n <= |s| && !StandaloneClosingTag(s).0 && NoOpenerBefore(s, n)
    ensures NoCloserBefore(s, n)
  {
    hide CloserLen, OpenerLen, FindClosingTag, StandaloneClosingTag;
    if FindClosingTag(s).0 >= 0 {
      var j :| 0 <= j < FindClosingTag(s).0 && j < |s| && OpenerLen(s[j..]) != 0;
      assert j >= n;
    }
  }

  /** The same blocks and mode, and if `whole` the same text outside as well. */
  predicate Agree(whole: bool, a: Parsed, b: Parsed) {
    Alike(a, b) && (whole ==> a == b)
  }

  /** One buffer, scanned and parsed, with the withheld fragment still to be read: the same blocks and mode unless a
      closing tag is cut inside a block, and the same text unless any is. */
  lemma {:induction false} Advance(r: Parsed, s: string, rest: string)
    requires r.Valid() && (Scan(r.inBlock, r.pending, s).0.inBlock ==> Whole(s, rest))
    ensures var scanned := Scan(r.inBlock, r.pending, s);
      Agree(Whole(s, rest), Consume(r, s + rest), Consume(After(r, scanned), scanned.0.openBuffer + rest))
    decreases |s|, 2
  {
    hide CloserLen, OpenerLen, FindClosingTag, FindOpeningTag, StandaloneClosingTag, HasIncompleteOpenTag, Consume,
      Whole;
    if s == "" {
      assert s + rest == rest;
      assert After(r, Scan(r.inBlock, r.pending, s)) == r;
    } else if r.inBlock {
      AdvanceInside(r, s, rest);
    } else if StandaloneClosingTag(s).0 {
      AdvanceLost(r, s, rest);
    } else {
      AdvanceOutside(r, s, rest);
    }
  }

  lemma {:induction false} AdvanceLost(r: Parsed, s: string, rest: string)
    requires !r.inBlock && r.pending == "" && s != "" && StandaloneClosingTag(s).0
    requires Scan(r.inBlock, r.pending, s).0.inBlock ==> Whole(s, rest)
    ensures var scanned := Scan(r.inBlock, r.pending, s);
      Agree(Whole(s, rest), Consume(r, s + rest), Consume(After(r, scanned), scanned.0.openBuffer + rest))
    decreases |s|, 1
  {
    hide Scan, After, CloserLen, OpenerLen, FindClosingTag, FindOpeningTag, StandaloneClosingTag,
      HasIncompleteOpenTag, Consume, Whole;
    var (i, k) := FindClosingTag(s);
    AdvanceStray(r, s, rest);
    ScanLost(s);
    AfterLost(r, s[..i], Scan(false, "", s[i + k..]));
    AdvanceSuffix(r.Say(s[..i]).Stray(), s, i + k, rest);
  }

  lemma ScanLost(s: string)
    requires s != "" && StandaloneClosingTag(s).0
    ensures var (i, k) := FindClosingTag(s);
      var later := Scan(false, "", s[i + k..]);
      Scan(false, "", s) == (later.0, [Lost(s[..i])] + later.1)
  {
    hide FindOpeningTag, HasIncompleteOpenTag;
  }

  lemma {:induction false} AdvanceSuffix(r: Parsed, s: string, n: nat, rest: string)
    requires r.Valid() && 0 < n <= |s| && (Scan(r.inBlock, r.pending, s[n..]).0.inBlock ==> Whole(s, rest))
    ensures var scanned := Scan(r.inBlock, r.pending, s[n..]);
      Agree(Whole(s, rest), Consume(r, s[n..] + rest), Consume(After(r, scanned), scanned.0.openBuffer + rest))
    decreases |s|, 0
  {
    hide Scan, After, CloserLen, Consume, Whole;
    assert s == s[..n] + s[n..];
    if Whole(s, rest) { WholeSuffix(s[..n], s[n..], rest); }
    Advance(r, s[n..], rest);
  }

  lemma {:induction false} AdvanceInside(r: Parsed, s: string, rest: string)
    requires r.inBlock && s != "" && (Scan(r.inBlock, r.pending, s).0.inBlock ==> Whole(s, rest))
    ensures var scanned := Scan(r.inBlock, r.pending, s);
      Agree(Whole(s, rest), Consume(r, s + rest), Consume(After(r, scanned), scanned.0.openBuffer + rest))
    decreases |s|, 1
  {
    hide CloserLen, OpenerLen, FindClosingTag, FindOpeningTag, StandaloneClosingTag, HasIncompleteOpenTag, Consume;
    var (i, k) := FindClosingTag(s);
    if i < 0 {
      WholeNoCloser(s, rest, |s|);
      SkipInside(r, s + rest, |s|);
      assert (s + rest)[..|s|] == s && (s + rest)[|s|..] == rest;
      assert "" + rest == rest;
      AfterNone(r, Scan(r.inBlock, r.pending, s).0);
    } else {
      AdvanceClose(r, s, rest);
      AfterBlock(r, s[..i], Scan(false, "", s[i + k..]));
      AdvanceSuffix(r.Think(s[..i]).Close(), s, i + k, rest);
    }
  }

  lemma {:induction false} AdvanceOutside(r: Parsed, s: string, rest: string)
    requires !r.inBlock && r.pending == "" && s != "" && !StandaloneClosingTag(s).0
    requires Scan(r.inBlock, r.pending, s).0.inBlock ==> Whole(s, rest)
    ensures var scanned := Scan(r.inBlock, r.pending, s);
      Agree(Whole(s, rest), Consume(r, s + rest), Consume(After(r, scanned), scanned.0.openBuffer + rest))
    decreases |s|, 1
  {
    hide Scan, After, CloserLen, OpenerLen, FindClosingTag, FindOpeningTag, StandaloneClosingTag,
      HasIncompleteOpenTag, Consume, Whole;
    var (i, k) := FindOpeningTag(s);
    if i >= 0 {
      AdvanceOpen(r, s, rest);
      ScanOpen(s);
      AfterOpen(r, s, i, Scan(true, "", s[i + k..]));
      AdvanceSuffix(r.Say(s[..i]).Open(), s, i + k, rest);
    } else {
      AdvancePlain(r, s, rest);
    }
  }

  lemma ScanOpen(s: string)
    requires s != "" && !StandaloneClosingTag(s).0 && FindOpeningTag(s).0 >= 0
    ensures var (i, k) := FindOpeningTag(s);
      var inner := Scan(true, "", s[i + k..]);
      Scan(false, "", s) == (inner.0, (if i > 0 then [Text(s[..i])] else []) + inner.1)
  {
    hide FindOpeningTag, StandaloneClosingTag;
  }

  lemma AdvancePlain(r: Parsed, s: string, rest: string)
    requires !r.inBlock && r.pending == "" && s != ""
    requires !StandaloneClosingTag(s).0 && FindOpeningTag(s).0 < 0
    ensures var scanned := Scan(r.inBlock, r.pending, s);
      Agree(Whole(s, rest), Consume(r, s + rest), Consume(After(r, scanned), scanned.0.openBuffer + rest))
  {
    hide CloserLen, OpenerLen, FindClosingTag, FindOpeningTag, StandaloneClosingTag, HasIncompleteOpenTag, Consume,
      Whole;
    if HasIncompleteOpenTag(s) {
      AfterNone(r, Scan(r.inBlock, r.pending, s).0);
    } else {
      NoCloserAhead(s, |s|);
      NoOpenerCompleted(s, rest, |s|);
      assert "" + rest == rest;
      AfterPlain(r, s);
      if Whole(s, rest) { PlainWhole(r, s, rest); } else { PlainCut(r, s, rest); }
    }
  }

  lemma PlainWhole(r: Parsed, s: string, rest: string)
    requires !r.inBlock && NoCloserBefore(s, |s|) && NoOpenerBefore(s + rest, |s|) && Whole(s, rest)
    ensures Consume(r, s + rest) == Consume(r.Say(s), rest)
  {
    hide CloserLen, OpenerLen, Consume, Whole;
    WholeNoCloser(s, rest, |s|);
    SkipOutside(r, s + rest, |s|);
    assert (s + rest)[..|s|] == s && (s + rest)[|s|..] == rest;
  }

  /** A stray closing tag that is cut: the whole-text parser drops it, the stream takes it for text, and neither sees
      a block. */
  lemma PlainCut(r: Parsed, s: string, rest: string)
    requires !r.inBlock && NoCloserBefore(s, |s|) && NoOpenerBefore(s + rest, |s|) && !Whole(s, rest)
    ensures Alike(Consume(r, s + rest), Consume(r.Say(s), rest))
  {
    hide CloserLen, OpenerLen, Consume, NoOpenerBefore, NoCloserBefore;
    var j :| 0 <= j < |s| && j + CloserLen((s + rest)[j..]) > |s|;
    var m := j + CloserLen((s + rest)[j..]) - |s|;
    DropCut(r, s, rest, j);
    SayCut(r.Say(s), s, rest, j);
    AlikeConsume(r.Say((s + rest)[..j]).Stray(), r.Say(s).Say(rest[..m]), rest[m..]);
  }

  lemma DropCut(r: Parsed, s: string, rest: string, j: nat)
    requires !r.inBlock && NoCloserBefore(s, |s|) && NoOpenerBefore(s + rest, |s|)
    requires j < |s| && j + CloserLen((s + rest)[j..]) > |s|
    ensures Consume(r, s + rest) ==
      Consume(r.Say((s + rest)[..j]).Stray(), rest[j + CloserLen((s + rest)[j..]) - |s|..])
  {
    hide CloserLen, OpenerLen, Consume;
    var tag := (s + rest)[j..];
    assert s[j] == tag[0] == '<';
    NoCloserCompleted(s, rest, j);
    SkipOutside(r, s + rest, j);
    TakeTag(r.Say((s + rest)[..j]), tag);
    assert tag[CloserLen(tag)..] == rest[j + CloserLen(tag) - |s|..];
  }

  lemma SayCut(r: Parsed, s: string, rest: string, j: nat)
    requires !r.inBlock && j < |s| && j + CloserLen((s + rest)[j..]) > |s|
    ensures var m := j + CloserLen((s + rest)[j..]) - |s|; Consume(r, rest) == Consume(r.Say(rest[..m]), rest[m..])
  {
    hide CloserLen, OpenerLen, Consume, NoOpenerBefore, NoCloserBefore;
    var tag := (s + rest)[j..];
    var m := j + CloserLen(tag) - |s|;
    assert tag[|s| - j..] == rest;
    NoTagInTail(tag, CloserLen(tag), rest, |s| - j, m);
    SkipOutside(r, rest, m);
  }

  lemma NoTagInTail(tag: string, k: nat, rest: string, d: nat, m: nat)
    requires 0 < d < k <= |tag| && m == k - d && m <= |rest| && tag[d..] == rest
    requires forall i :: 0 < i < k ==> tag[i] != '<'
    ensures NoOpenerBefore(rest, m) && NoCloserBefore(rest, m)
  {
    hide CloserLen, OpenerLen;
    assert forall i :: 0 <= i < m ==> rest[i..][0] == tag[d + i];
  }

  lemma AfterNone(r: Parsed, p: Parser)
    ensures After(r, (p, [])) == r.(pending := p.tagBuffer, inBlock := p.inBlock)
  {
    assert r.outside + "" == r.outside && r.blocks + [] == r.blocks && r.told + [] == r.told;
  }

  lemma AfterPlain(r: Parsed, s: string)
    requires r.Valid() && !r.inBlock
    ensures After(r, (START, [Text(s)])) == r.Say(s)
  {
    AfterText(r, s, (START, []));
    assert [Text(s)] + [] == [Text(s)];
    AfterNone(r.Say(s), START);
  }

  lemma AfterOpen(r: Parsed, s: string, i: nat, inner: (Parser, seq<Event>))
    requires i <= |s|
    ensures After(r, (inner.0, (if i > 0 then [Text(s[..i])] else []) + inner.1)) ==
            After(r.Say(s[..i]).Open(), inner)
  {
    AfterText(r, s[..i], inner);
    if i == 0 {
      assert [] + inner.1 == inner.1;
      assert s[..0] == "";
      SayNothing(r);
    }
  }
}
