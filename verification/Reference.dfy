/** The tag parser a reader has in mind: it sees the whole text at once, one character at a time. */
module Reference {
  import opened Strings
  import opened Tags

  /** A letter, and whether it belongs to a thinking block. */
  datatype Ink = Ink(letter: char, thought: bool)

  function Inked(s: string, thought: bool): (r: seq<Ink>)
    ensures |r| == |s|
  {
    seq(|s|, i requires 0 <= i < |s| => Ink(s[i], thought))
  }

  lemma InkAppend(a: string, b: string, thought: bool)
    ensures Inked(a + b, thought) == Inked(a, thought) + Inked(b, thought)
    ensures Inked("", thought) == []
  {
  }

  /** Text outside thinking blocks, texts of the closed blocks, the text of the block still open, how many closing tags
      closed nothing, and the text outside and in closed blocks letter by letter, in the order of the source. */
  datatype Parsed = Parsed(outside: string, blocks: seq<string>, pending: string, inBlock: bool, strays: nat,
                           told: seq<Ink>)
  {
    predicate Valid() {
      !inBlock ==> pending == ""
    }

    function Say(text: string): Parsed {
      this.(outside := outside + text, told := told + Inked(text, false))
    }

    function Think(text: string): Parsed {
      this.(pending := pending + text)
    }

    function Open(): Parsed {
      this.(inBlock := true)
    }

    function Close(): Parsed {
      Parsed(outside, blocks + [pending], "", false, strays, told + Inked(pending, true))
    }

    function Stray(): Parsed {
      this.(strays := strays + 1)
    }
  }

  const NOTHING := Parsed("", [], "", false, 0, [])

  /** Any closing tag ends a block; a closing tag outside a block is dropped, and only the tag. */
  function Consume(r: Parsed, s: string): Parsed
    decreases |s|
  {
    if s == "" then r
    else if r.inBlock then
      if CloserLen(s) > 0 then Consume(r.Close(), s[CloserLen(s)..])
      else Consume(r.Think([s[0]]), s[1..])
    else if OpenerLen(s) > 0 then Consume(r.Open(), s[OpenerLen(s)..])
    else if CloserLen(s) > 0 then Consume(r.Stray(), s[CloserLen(s)..])
    else Consume(r.Say([s[0]]), s[1..])
  }

  function Parse(text: string): Parsed {
    Consume(NOTHING, text)
  }

  /** The same blocks and mode, whatever is outside. */
  predicate Alike(a: Parsed, b: Parsed) {
    a.blocks == b.blocks && a.pending == b.pending && a.inBlock == b.inBlock
  }

  lemma {:induction false} AlikeConsume(a: Parsed, b: Parsed, s: string)
    requires Alike(a, b)
    ensures Alike(Consume(a, s), Consume(b, s))
    decreases |s|
  {
    hide OpenerLen, CloserLen;
    if s == "" {
    } else if a.inBlock {
      if CloserLen(s) > 0 {
        AlikeConsume(a.Close(), b.Close(), s[CloserLen(s)..]);
      } else {
        AlikeConsume(a.Think([s[0]]), b.Think([s[0]]), s[1..]);
      }
    } else if OpenerLen(s) > 0 {
      AlikeConsume(a.Open(), b.Open(), s[OpenerLen(s)..]);
    } else if CloserLen(s) > 0 {
      AlikeConsume(a.Stray(), b.Stray(), s[CloserLen(s)..]);
    } else {
      AlikeConsume(a.Say([s[0]]), b.Say([s[0]]), s[1..]);
    }
  }

  lemma {:induction false} SkipOutside(r: Parsed, s: string, n: nat)
    requires !r.inBlock && n <= |s| && NoOpenerBefore(s, n) && NoCloserBefore(s, n)
    ensures Consume(r, s) == Consume(r.Say(s[..n]), s[n..])
    decreases n
  {
    hide OpenerLen, CloserLen, Consume;
    if n == 0 {
      SayNothing(r);
      assert s[0..] == s && s[..0] == "";
    } else {
      assert Consume(r, s) == Consume(r.Say([s[0]]), s[1..]) by {
        assert s[0..] == s;
        SayOne(r, s);
      }
      assert forall j :: 0 <= j < n - 1 ==> s[1..][j..] == s[j + 1..];
      SkipOutside(r.Say([s[0]]), s[1..], n - 1);
      SayTwice(r, [s[0]], s[1..][..n - 1]);
      assert [s[0]] + s[1..][..n - 1] == s[..n];
      assert s[1..][n - 1..] == s[n..];
    }
  }

  lemma SayTwice(r: Parsed, a: string, b: string)
    ensures r.Say(a).Say(b) == r.Say(a + b)
  {
    hide Inked;
    InkAppend(a, b, false);
    assert r.outside + a + b == r.outside + (a + b);
    assert r.told + Inked(a, false) + Inked(b, false) == r.told + (Inked(a, false) + Inked(b, false));
  }

  lemma SayNothing(r: Parsed)
    ensures r.Say("") == r
  {
    assert r.outside + "" == r.outside && r.told + Inked("", false) == r.told;
  }

  lemma SayOne(r: Parsed, s: string)
    requires !r.inBlock && s != "" && OpenerLen(s) == 0 && CloserLen(s) == 0
    ensures Consume(r, s) == Consume(r.Say([s[0]]), s[1..])
  {
    hide OpenerLen, CloserLen;
  }

  lemma {:induction false} SkipInside(r: Parsed, s: string, n: nat)
    requires r.inBlock && n <= |s| && NoCloserBefore(s, n)
    ensures Consume(r, s) == Consume(r.Think(s[..n]), s[n..])
    decreases n
  {
    hide OpenerLen, CloserLen, Consume;
    if n == 0 {
      assert r.pending + s[..0] == r.pending;
      assert s[0..] == s;
    } else {
      assert Consume(r, s) == Consume(r.Think([s[0]]), s[1..]) by {
        assert s[0..] == s;
        ThinkOne(r, s);
      }
      assert forall j :: 0 <= j < n - 1 ==> s[1..][j..] == s[j + 1..];
      SkipInside(r.Think([s[0]]), s[1..], n - 1);
      assert r.pending + [s[0]] + s[1..][..n - 1] == r.pending + s[..n];
      assert s[1..][n - 1..] == s[n..];
    }
  }

  lemma ThinkOne(r: Parsed, s: string)
    requires r.inBlock && s != "" && CloserLen(s) == 0
    ensures Consume(r, s) == Consume(r.Think([s[0]]), s[1..])
  {
    hide OpenerLen, CloserLen;
  }

  lemma TakeTag(r: Parsed, s: string)
    ensures r.inBlock && CloserLen(s) > 0 ==> Consume(r, s) == Consume(r.Close(), s[CloserLen(s)..])
    ensures !r.inBlock && OpenerLen(s) > 0 ==> Consume(r, s) == Consume(r.Open(), s[OpenerLen(s)..])
    ensures !r.inBlock && CloserLen(s) > 0 ==> Consume(r, s) == Consume(r.Stray(), s[CloserLen(s)..])
  {
    hide OpenerLen, CloserLen;
  }

  /** Reading on only appends: outside text grows, and so does the list of blocks with the open one last. */
  lemma {:induction false} ConsumeGrows(r: Parsed, s: string)
    ensures r.outside <= Consume(r, s).outside && r.blocks <= Consume(r, s).blocks && r.strays <= Consume(r, s).strays
    ensures r.inBlock && Consume(r, s).blocks == r.blocks ==>
      Consume(r, s).inBlock && r.pending <= Consume(r, s).pending
    ensures r.inBlock && |Consume(r, s).blocks| > |r.blocks| ==> r.pending <= Consume(r, s).blocks[|r.blocks|]
    decreases |s|
  {
    hide OpenerLen, CloserLen;
    if s == "" {
    } else if r.inBlock {
      if CloserLen(s) > 0 {
        ConsumeGrows(r.Close(), s[CloserLen(s)..]);
      } else {
        ConsumeGrows(r.Think([s[0]]), s[1..]);
      }
    } else if OpenerLen(s) > 0 {
      ConsumeGrows(r.Open(), s[OpenerLen(s)..]);
    } else if CloserLen(s) > 0 {
      ConsumeGrows(r.Stray(), s[CloserLen(s)..]);
    } else {
      ConsumeGrows(r.Say([s[0]]), s[1..]);
    }
  }

  /** Text may be cut in front of any `<`: no tag reaches across such a point. */
  lemma {:induction false} CutBeforeTag(r: Parsed, x: string, y: string)
    requires y != "" && y[0] == '<'
    ensures Consume(r, x + y) == Consume(Consume(r, x), y)
    decreases |x|
  {
    hide OpenerLen, CloserLen;
    if x == "" {
      assert x + y == y;
    } else {
      assert (x + y)[|x|] == '<';
      OpenerExtend(x, y);
      CloserExtend(x, y);
      if r.inBlock && CloserLen(x) > 0 {
        CutAfter(r.Close(), x, y, CloserLen(x));
      } else if r.inBlock {
        CutAfter(r.Think([x[0]]), x, y, 1);
      } else if OpenerLen(x) > 0 {
        CutAfter(r.Open(), x, y, OpenerLen(x));
      } else if CloserLen(x) > 0 {
        CutAfter(r.Stray(), x, y, CloserLen(x));
      } else {
        CutAfter(r.Say([x[0]]), x, y, 1);
      }
    }
  }

  lemma {:induction false} CutAfter(r: Parsed, x: string, y: string, n: nat)
    requires y != "" && y[0] == '<' && 0 < n <= |x|
    ensures Consume(r, (x + y)[n..]) == Consume(Consume(r, x[n..]), y)
    decreases |x|, 0
  {
    hide OpenerLen, CloserLen, Consume;
    assert (x + y)[n..] == x[n..] + y;
    CutBeforeTag(r, x[n..], y);
  }
}
