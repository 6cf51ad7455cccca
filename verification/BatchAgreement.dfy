/** Streamed and complete answers are split alike. */
module BatchAgreement {
  import opened Strings
  import opened Tags
  import opened Normalizer
  import opened Reference
  import opened Refinement
  import opened ChunkedStream
  import opened StreamGuarantees
  import opened BatchNormalizer

  /** Every closing tag that closes a block is of the kind of its opening tag. `open` is the length of the opening tag
      of the block that `s` starts in, 0 outside. (A `<think>` block that starts with `<thinking>` is left out: the
      batch parser strips both.) */
  predicate Tidy(s: string, open: nat)
    decreases |s|
  {
    if s == "" then true
    else if open > 0 then
      if CloserLen(s) > 0 then CloserLen(s) == open + 1 && Tidy(s[CloserLen(s)..], 0)
      else Tidy(s[1..], open)
    else if OpenerLen(s) > 0 then
      (OpenerLen(s) == 7 ==> !HasPrefix(s[7..], OPEN_THINKING)) && Tidy(s[OpenerLen(s)..], OpenerLen(s))
    else if CloserLen(s) > 0 then Tidy(s[CloserLen(s)..], 0)
    else Tidy(s[1..], 0)
  }

  function TrimmedParts(blocks: seq<string>): seq<string> {
    if blocks == [] then []
    else (if TrimSpace(blocks[0]) != "" then [TrimSpace(blocks[0])] else []) + TrimmedParts(blocks[1..])
  }

  /** Reading on inside a block, up to its end. */
  lemma {:induction false} TidyInside(s: string, open: nat, i: nat)
    requires open > 0 && Tidy(s, open) && i <= |s| && NoCloserBefore(s, i)
    ensures Tidy(s[i..], open)
    decreases i
  {
    hide OpenerLen, CloserLen;
    assert s[0..] == s;
    if i > 0 {
      assert forall j :: 0 <= j < i - 1 ==> s[1..][j..] == s[j + 1..];
      TidyInside(s[1..], open, i - 1);
      assert s[1..][i - 1..] == s[i..];
    }
  }

  lemma BlockEndsAt(s: string, open: nat)
    requires open > 0 && Tidy(s, open) && FindClosingTag(s).0 >= 0
    ensures var (i, k) := FindClosingTag(s); k == open + 1 && i + k <= |s| && Tidy(s[i + k..], 0)
  {
    hide OpenerLen, CloserLen, FindClosingTag, Tidy, NoCloserBefore;
    var (i, k) := FindClosingTag(s);
    TidyInside(s, open, i);
    TidyAtEnd(s[i..], open);
    assert s[i..][k..] == s[i + k..];
  }

  lemma TidyAtEnd(s: string, open: nat)
    requires open > 0 && Tidy(s, open) && CloserLen(s) > 0
    ensures CloserLen(s) == open + 1 && Tidy(s[CloserLen(s)..], 0)
  {
    hide OpenerLen, CloserLen;
  }

  /** The match that the batch parser finds is the block that the stream finds. */
  lemma TidyBlock(s: string, t: string)
    requires OpenerLen(s) > 0 && Tidy(s, 0) && t == s[OpenerLen(s)..] && FindClosingTag(t).0 >= 0
    ensures var (i, k) := FindClosingTag(t);
      i + k <= |t| && Tidy(t[i + k..], 0) && BlockLen(s) > 0 && s[BlockLen(s)..] == t[i + k..] &&
      MatchText(s[..BlockLen(s)]) == TrimSpace(t[..i])
  {
    hide FindClosingTag, Tidy, TrimSpace, MatchText, HasPrefix, HasSuffix, NoCloserBefore, OpenerLen, CloserLen;
    TidyOpen(s);
    var n := OpenerLen(s);
    BlockEndsAt(t, n);
    FirstOfKind(t, n);
    OpenerKind(s);
    BlockShape(t);
    var (i, k) := FindClosingTag(t);
    assert BlockLen(s) == n + (i + k);
    MatchShape(s, n, t, i, k);
    assert s[n + (i + k)..] == t[i + k..];
  }

  lemma TidyOpen(s: string)
    requires OpenerLen(s) > 0 && Tidy(s, 0)
    ensures Tidy(s[OpenerLen(s)..], OpenerLen(s)) && (OpenerLen(s) == 7 ==> !HasPrefix(s[7..], OPEN_THINKING))
  {
    hide OpenerLen, CloserLen;
  }

  lemma OpenerKind(s: string)
    ensures OpenerLen(s) == 7 <==> HasPrefix(s, OPEN_THINK)
    ensures OpenerLen(s) == 10 ==> HasPrefix(s, OPEN_THINKING) && !HasPrefix(s, OPEN_THINK)
    ensures OpenerLen(s) in {0, 7, 10}
  {
  }

  lemma FirstOfKind(s: string, n: nat)
    requires FindClosingTag(s).0 >= 0 && FindClosingTag(s).1 == n + 1
    ensures n == 7 ==> Index(s, CLOSE_THINK) == FindClosingTag(s).0
    ensures n == 10 ==> Index(s, CLOSE_THINKING) == FindClosingTag(s).0
  {
    hide FindClosingTag, CloserLen, Index;
    var (i, k) := FindClosingTag(s);
    CloserOccurs(s, i);
    var (a, b) := (Index(s, CLOSE_THINK), Index(s, CLOSE_THINKING));
    if n == 7 { CloserOccurs(s, a); }
    if n == 10 { CloserOccurs(s, b); }
  }

  lemma BlockShape(t: string)
    requires FindClosingTag(t).0 >= 0
    ensures var (i, k) := FindClosingTag(t);
      i + k <= |t| && (t[i..i + k] == CLOSE_THINK || t[i..i + k] == CLOSE_THINKING) &&
      !HasSuffix(t[..i], CLOSE_THINK) && !HasSuffix(t[..i], CLOSE_THINKING)
  {
    hide FindClosingTag, CloserLen, HasSuffix;
    var (i, k) := FindClosingTag(t);
    CloserKind(t[i..]);
    assert t[i..][..k] == t[i..i + k];
    NoCloserInside(t, i);
  }

  lemma MatchShape(s: string, n: nat, t: string, i: nat, k: nat)
    requires n in {7, 10} && n <= |s| && t == s[n..] && i + k <= |t|
    requires n == 7 ==> HasPrefix(s, OPEN_THINK)
    requires n == 10 ==> HasPrefix(s, OPEN_THINKING) && !HasPrefix(s, OPEN_THINK)
    requires n == 7 ==> !HasPrefix(t, OPEN_THINKING)
    requires t[i..i + k] == CLOSE_THINK || t[i..i + k] == CLOSE_THINKING
    requires !HasSuffix(t[..i], CLOSE_THINK) && !HasSuffix(t[..i], CLOSE_THINKING)
    ensures MatchText(s[..n + (i + k)]) == TrimSpace(t[..i])
  {
    hide TrimSpace, TrimPrefix, TrimSuffix, HasPrefix, HasSuffix;
    var m := s[..n + (i + k)];
    assert m[n..] == t[..i + k] == t[..i] + t[i..i + k];
    if n == 7 { ShorterPrefix(t, i + k); }
    PrefixStripped(m, n, s);
    SuffixStripped(t[..i], t[i..i + k]);
  }

  lemma ShorterPrefix(s: string, n: nat)
    requires n <= |s| && !HasPrefix(s, OPEN_THINKING)
    ensures !HasPrefix(s[..n], OPEN_THINKING)
  {
    if n >= 10 { assert s[..n][..10] == s[..10]; }
  }

  lemma CloserKind(s: string)
    ensures CloserLen(s) == 8 ==> s[..8] == CLOSE_THINK
    ensures CloserLen(s) == 11 ==> s[..11] == CLOSE_THINKING
    ensures CloserLen(s) in {0, 8, 11}
  {
  }

  lemma PrefixStripped(m: string, n: nat, s: string)
    requires n in {7, 10} && n <= |m| <= |s| && m == s[..|m|]
    requires n == 7 ==> HasPrefix(s, OPEN_THINK) && !HasPrefix(m[n..], OPEN_THINKING)
    requires n == 10 ==> HasPrefix(s, OPEN_THINKING) && !HasPrefix(s, OPEN_THINK)
    ensures TrimPrefix(TrimPrefix(m, OPEN_THINK), OPEN_THINKING) == m[n..]
  {
    assert m[..n] == s[..n];
    assert n == 10 ==> m[..7] == s[..7];
  }

  lemma NoCloserInside(s: string, i: nat)
    requires i <= |s| && NoCloserBefore(s, i)
    ensures !HasSuffix(s[..i], CLOSE_THINK) && !HasSuffix(s[..i], CLOSE_THINKING)
  {
    hide CloserLen;
    if HasSuffix(s[..i], CLOSE_THINK) {
      assert s[..i][i - 8..] == s[i - 8..i];
      CloserOccurs(s, i - 8);
    }
    if HasSuffix(s[..i], CLOSE_THINKING) {
      assert s[..i][i - 11..] == s[i - 11..i];
      CloserOccurs(s, i - 11);
    }
  }

  lemma SuffixStripped(block: string, close: string)
    requires close == CLOSE_THINK || close == CLOSE_THINKING
    requires !HasSuffix(block, CLOSE_THINK) && !HasSuffix(block, CLOSE_THINKING)
    ensures TrimSuffix(TrimSuffix(block + close, CLOSE_THINK), CLOSE_THINKING) == block
  {
    var m := block + close;
    assert m[|block|..] == close && m[..|block|] == block;
    if close == CLOSE_THINKING {
      assert m[|m| - 8..][0] == CLOSE_THINKING[3];
    }
  }

  // ---- The whole-text parser, from a point outside any block ----

  /** What is read next does not depend on what has been read. */
  lemma {:induction false} ConsumeShift(r: Parsed, s: string)
    ensures var (q, z) := (Consume(r, s), Consume(NOTHING.(pending := r.pending, inBlock := r.inBlock), s));
      q.outside == r.outside + z.outside && q.blocks == r.blocks + z.blocks && q.pending == z.pending &&
      q.inBlock == z.inBlock && q.strays == r.strays + z.strays
    decreases |s|
  {
    hide OpenerLen, CloserLen;
    if s == "" {
      assert r.outside + "" == r.outside && r.blocks + [] == r.blocks;
    } else {
      var z := NOTHING.(pending := r.pending, inBlock := r.inBlock);
      var n := if r.inBlock then if CloserLen(s) > 0 then CloserLen(s) else 1
               else if OpenerLen(s) > 0 then OpenerLen(s) else if CloserLen(s) > 0 then CloserLen(s) else 1;
      var (r1, z1) := (Taken(r, s), Taken(z, s));
      ConsumeTaken(r, s);
      ConsumeTaken(z, s);
      ConsumeShift(r1, s[n..]);
      ConsumeShift(z1, s[n..]);
      ShiftedTwice(r, r1, z1, Consume(NOTHING.(pending := r1.pending, inBlock := r1.inBlock), s[n..]));
    }
  }

  /** One step of the parser. */
  function Taken(r: Parsed, s: string): Parsed
    requires s != ""
  {
    if r.inBlock then if CloserLen(s) > 0 then r.Close() else r.Think([s[0]])
    else if OpenerLen(s) > 0 then r.Open() else if CloserLen(s) > 0 then r.Stray() else r.Say([s[0]])
  }

  lemma ConsumeTaken(r: Parsed, s: string)
    requires s != ""
    ensures var n := if r.inBlock then if CloserLen(s) > 0 then CloserLen(s) else 1
                     else if OpenerLen(s) > 0 then OpenerLen(s) else if CloserLen(s) > 0 then CloserLen(s) else 1;
      Consume(r, s) == Consume(Taken(r, s), s[n..])
  {
    hide OpenerLen, CloserLen;
  }

  lemma ShiftedTwice(r: Parsed, r1: Parsed, z1: Parsed, z: Parsed)
    requires r1.outside == r.outside + z1.outside && r1.blocks == r.blocks + z1.blocks &&
      r1.strays == r.strays + z1.strays
    ensures r1.outside + z.outside == r.outside + (z1.outside + z.outside)
    ensures r1.blocks + z.blocks == r.blocks + (z1.blocks + z.blocks)
    ensures r1.strays + z.strays == r.strays + (z1.strays + z.strays)
  {
  }

  /** The text of `s` without blocks and tags: outside of blocks, and in a block that never ends. */
  function Bare(s: string): string {
    Parse(s).outside + Parse(s).pending
  }

  lemma AfterLetter(s: string)
    requires s != "" && OpenerLen(s) == 0 && CloserLen(s) == 0
    ensures Bare(s) == [s[0]] + Bare(s[1..]) && Parse(s).blocks == Parse(s[1..]).blocks
    ensures Parse(s).outside == [s[0]] + Parse(s[1..]).outside
  {
    hide OpenerLen, CloserLen, Consume;
    SayOne(NOTHING, s);
    ConsumeShift(NOTHING.Say([s[0]]), s[1..]);
    assert "" + [s[0]] == [s[0]];
  }

  lemma AfterStray(s: string)
    requires OpenerLen(s) == 0 && CloserLen(s) > 0
    ensures var t := s[CloserLen(s)..];
      Bare(s) == Bare(t) && Parse(s).blocks == Parse(t).blocks && Parse(s).outside == Parse(t).outside
  {
    hide OpenerLen, CloserLen, Consume;
    TakeTag(NOTHING, s);
    ConsumeShift(NOTHING.Stray(), s[CloserLen(s)..]);
    assert "" + Parse(s[CloserLen(s)..]).outside == Parse(s[CloserLen(s)..]).outside;
    assert [] + Parse(s[CloserLen(s)..]).blocks == Parse(s[CloserLen(s)..]).blocks;
  }

  lemma PastBlock(s: string, t: string)
    requires OpenerLen(s) > 0 && t == s[OpenerLen(s)..] && FindClosingTag(t).0 >= 0
    ensures var (i, k) := FindClosingTag(t);
      i + k <= |t| && Bare(s) == Bare(t[i + k..]) && Parse(s).blocks == [t[..i]] + Parse(t[i + k..]).blocks
  {
    hide FindClosingTag, OpenerLen, CloserLen, Consume, NoCloserBefore, NoOpenerBefore;
    var (i, k) := FindClosingTag(t);
    TakeTag(NOTHING, s);
    ParseBlockAt(NOTHING.Open(), t, i, k);
    var r := NOTHING.Open().Think(t[..i]).Close();
    assert "" + t[..i] == t[..i] && [] + [t[..i]] == [t[..i]];
    ConsumeShift(r, t[i + k..]);
    assert "" + Parse(t[i + k..]).outside == Parse(t[i + k..]).outside;
  }

  lemma ParseBlockAt(r: Parsed, t: string, i: nat, k: nat)
    requires r.inBlock && i < |t| && NoCloserBefore(t, i) && k == CloserLen(t[i..]) && k > 0
    ensures i + k <= |t| && Consume(r, t) == Consume(r.Think(t[..i]).Close(), t[i + k..])
  {
    hide OpenerLen, CloserLen, Consume, Inked, NoCloserBefore;
    SkipInside(r, t, i);
    CloseAt(r.Think(t[..i]), t, i, k);
  }

  lemma CloseAt(r: Parsed, t: string, i: nat, k: nat)
    requires r.inBlock && i < |t| && k == CloserLen(t[i..]) && k > 0
    ensures i + k <= |t| && Consume(r, t[i..]) == Consume(r.Close(), t[i + k..])
  {
    hide OpenerLen, CloserLen, Consume, Inked;
    TakeTag(r, t[i..]);
    assert t[i..][k..] == t[i + k..];
  }

  /** A block that never ends. */
  lemma OpenTail(s: string, t: string)
    requires OpenerLen(s) > 0 && t == s[OpenerLen(s)..] && FindClosingTag(t).0 < 0
    ensures Parse(s).outside == "" && Parse(s).blocks == [] && Parse(s).pending == t && Parse(s).inBlock && Bare(s) == t
    ensures NoCloserBefore(s, |s|)
  {
    hide FindClosingTag, OpenerLen, CloserLen, Consume;
    TakeTag(NOTHING, s);
    SkipInside(NOTHING.Open(), t, |t|);
    assert t[..|t|] == t && t[|t|..] == "" && "" + t == t;
    ConsumeNothing(NOTHING.Open().Think(t));
    var n := OpenerLen(s);
    forall j | 0 <= j < |s| ensures CloserLen(s[j..]) == 0 {
      if j >= n {
        assert s[j..] == t[j - n..];
      } else {
        assert s[j..][0] == s[j];
        if j == 0 { assert s[0..] == s; NotBoth(s); }
      }
    }
  }

  lemma NotBoth(s: string)
    ensures OpenerLen(s) == 0 || CloserLen(s) == 0
  {
  }

  // ---- What the batch parser makes of it ----

  /** Text without a closing tag holds no match. */
  lemma {:induction false} NoMatch(s: string)
    requires NoCloserBefore(s, |s|)
    ensures Extract(s) == ([], s)
    decreases |s|
  {
    hide BlockLen, CloserLen;
    if s != "" {
      NoBlock(s);
      assert forall j :: 0 <= j < |s| - 1 ==> s[1..][j..] == s[j + 1..];
      NoMatch(s[1..]);
      assert s == [s[0]] + s[1..];
    }
  }

  lemma NoBlock(s: string)
    requires NoCloserBefore(s, |s|)
    ensures BlockLen(s) == 0
  {
    hide CloserLen;
    if HasPrefix(s, OPEN_THINK) && Index(s[7..], CLOSE_THINK) >= 0 {
      CloserThere(s, 7 + Index(s[7..], CLOSE_THINK), CLOSE_THINK);
    } else if HasPrefix(s, OPEN_THINKING) && Index(s[10..], CLOSE_THINKING) >= 0 {
      CloserThere(s, 10 + Index(s[10..], CLOSE_THINKING), CLOSE_THINKING);
    }
  }

  lemma CloserThere(s: string, i: nat, close: string)
    requires close == CLOSE_THINK || close == CLOSE_THINKING
    requires i + |close| <= |s| && s[i..i + |close|] == close
    ensures i < |s| && CloserLen(s[i..]) > 0
  {
    assert s[i..][..|close|] == close;
  }

  /** A stray closing tag is copied. */
  lemma {:induction false} ExtractPast(s: string, k: nat)
    requires k <= |s| && forall i :: 0 <= i < k ==> BlockLen(s[i..]) == 0
    ensures Extract(s) == (Extract(s[k..]).0, s[..k] + Extract(s[k..]).1)
    decreases k
  {
    hide BlockLen, Extract;
    if k == 0 {
      assert s[0..] == s && "" + Extract(s).1 == Extract(s).1;
    } else {
      assert s[0..] == s;
      forall i | 0 <= i < k - 1 ensures BlockLen(s[1..][i..]) == 0 {
        assert s[1..][i..] == s[i + 1..];
      }
      ExtractPast(s[1..], k - 1);
      ExtractOne(s);
      assert s[1..][k - 1..] == s[k..];
      Refront(s, k, Extract(s[k..]).1);
    }
  }

  lemma Refront(s: string, k: nat, rest: string)
    requires 0 < k <= |s|
    ensures [s[0]] + (s[1..][..k - 1] + rest) == s[..k] + rest
  {
    assert s[..k] == [s[0]] + s[1..][..k - 1];
  }

  lemma ExtractOne(s: string)
    requires s != "" && BlockLen(s) == 0
    ensures Extract(s) == (Extract(s[1..]).0, [s[0]] + Extract(s[1..]).1)
  {
    hide BlockLen;
  }

  lemma StrayCopied(s: string)
    requires CloserLen(s) > 0
    ensures var k := CloserLen(s); Extract(s) == (Extract(s[k..]).0, s[..k] + Extract(s[k..]).1)
  {
    hide CloserLen, BlockLen, OpenerLen;
    var k := CloserLen(s);
    forall i | 0 <= i < k ensures BlockLen(s[i..]) == 0 {
      assert s[i..][0] == s[i];
      if i == 0 { assert s[0..] == s; NotBoth(s); }
    }
    ExtractPast(s, k);
  }

  lemma {:induction false} StripClosersKeeps(s: string, k: nat)
    requires k <= |s| && forall i :: 0 <= i < k ==> s[i] != '<'
    ensures k <= |StripClosers(s)| && StripClosers(s)[..k] == s[..k]
    decreases k
  {
    hide CloserLen;
    if k > 0 {
      StripClosersKeeps(s[1..], k - 1);
      assert s[..k] == [s[0]] + s[1..][..k - 1];
    }
  }

  lemma {:induction false} StripOpenersKeeps(s: string, k: nat)
    requires k <= |s| && forall i :: 0 <= i < k ==> s[i] != '<'
    ensures k <= |StripOpeners(s)| && StripOpeners(s)[..k] == s[..k]
    decreases k
  {
    hide OpenerLen;
    if k > 0 {
      StripOpenersKeeps(s[1..], k - 1);
      assert s[..k] == [s[0]] + s[1..][..k - 1];
    }
  }

  /** A letter in front: no tag can begin there unless the bare text has one there. */
  lemma StripLetter(c: char, rest: string, bare: string)
    requires StripOpeners(StripClosers(rest)) == bare && Tagless([c] + bare)
    ensures StripOpeners(StripClosers([c] + rest)) == [c] + bare
  {
    hide CloserLen, OpenerLen, StripClosers, StripOpeners;
    var b := [c] + bare;
    assert b[0..] == b;
    CloserInFront(c, rest, bare);
    StripOne(c, rest);
    OpenerInFront(c, StripClosers(rest), bare);
    StripOneOpener(c, StripClosers(rest));
  }

  lemma StripKeeps(s: string, k: nat)
    requires k <= |s| && forall i :: 0 <= i < k ==> s[i] != '<'
    ensures var t := StripOpeners(StripClosers(s)); k <= |t| && t[..k] == s[..k]
  {
    hide StripClosers, StripOpeners;
    StripClosersKeeps(s, k);
    var x := StripClosers(s);
    assert forall i :: 0 <= i < k ==> x[i] == x[..k][i] == s[i];
    StripOpenersKeeps(x, k);
  }

  lemma CloserInFront(c: char, rest: string, bare: string)
    requires StripOpeners(StripClosers(rest)) == bare && CloserLen([c] + bare) == 0
    ensures CloserLen([c] + rest) == 0
  {
    hide CloserLen, OpenerLen, StripClosers, StripOpeners;
    var (s, b) := ([c] + rest, [c] + bare);
    var k := CloserLen(s);
    if k > 0 {
      assert forall i :: 0 <= i < k - 1 ==> rest[i] == s[i + 1];
      StripKeeps(rest, k - 1);
      assert b[..k] == [c] + bare[..k - 1] && s[..k] == [c] + rest[..k - 1];
      SameCloser(s, b, k);
    }
  }

  lemma OpenerInFront(c: char, x: string, bare: string)
    requires StripOpeners(x) == bare && OpenerLen([c] + bare) == 0
    ensures OpenerLen([c] + x) == 0
  {
    hide OpenerLen, StripOpeners;
    var (y, b) := ([c] + x, [c] + bare);
    var n := OpenerLen(y);
    if n > 0 {
      assert forall i :: 0 <= i < n - 1 ==> x[i] == y[i + 1];
      StripOpenersKeeps(x, n - 1);
      assert b[..n] == [c] + bare[..n - 1] && y[..n] == [c] + x[..n - 1];
      SameOpener(y, b, n);
    }
  }

  lemma SameCloser(s: string, b: string, k: nat)
    requires 0 < k == CloserLen(s) <= |b| && b[..k] == s[..k]
    ensures CloserLen(b) > 0
  {
    assert k in {8, 11} && (k == 11 ==> b[..8] == b[..k][..8] == s[..8]);
  }

  lemma SameOpener(s: string, b: string, k: nat)
    requires 0 < k == OpenerLen(s) <= |b| && b[..k] == s[..k]
    ensures OpenerLen(b) > 0
  {
    assert k in {7, 10} && (k == 10 ==> b[..7] == b[..k][..7] == s[..7]);
  }

  lemma StripOne(c: char, rest: string)
    ensures CloserLen([c] + rest) == 0 ==> StripClosers([c] + rest) == [c] + StripClosers(rest)
  {
    hide CloserLen;
    assert ([c] + rest)[1..] == rest;
  }

  lemma StripOneOpener(c: char, rest: string)
    ensures OpenerLen([c] + rest) == 0 ==> StripOpeners([c] + rest) == [c] + StripOpeners(rest)
  {
    hide OpenerLen;
    assert ([c] + rest)[1..] == rest;
  }

  lemma StripStray(s: string, k: nat, rest: string)
    requires 0 < k == CloserLen(s)
    ensures StripClosers(s[..k] + rest) == StripClosers(rest)
  {
    hide CloserLen;
    var t := s[..k];
    assert s == t + s[k..];
    CloserExtend(t, s[k..]);
    CloserExtend(t, rest);
    assert (t + rest)[k..] == rest;
  }

  lemma TaglessTail(c: char, t: string)
    requires Tagless([c] + t)
    ensures Tagless(t)
  {
    hide CloserLen, OpenerLen;
    assert forall j :: 0 <= j < |t| ==> ([c] + t)[j + 1..] == t[j..];
  }

  /** With the blocks taken out, stripping the tags that are left yields the bare text. */
  lemma {:induction false} BatchText(s: string)
    requires Tidy(s, 0) && Tagless(Bare(s))
    ensures StripOpeners(StripClosers(Extract(s).1)) == Bare(s)
    decreases |s|
  {
    hide FindClosingTag, OpenerLen, CloserLen, Consume, StripClosers, StripOpeners, BlockLen, Extract, Tagless, Bare,
      Parse;
    if s == "" {
      NothingLeft();
    } else if OpenerLen(s) > 0 {
      BatchTextBlock(s, s[OpenerLen(s)..]);
    } else if CloserLen(s) > 0 {
      AfterStray(s);
      StrayCopied(s);
      BatchText(s[CloserLen(s)..]);
      StripStray(s, CloserLen(s), Extract(s[CloserLen(s)..]).1);
    } else {
      AfterLetter(s);
      ExtractLetter(s);
      TaglessTail(s[0], Bare(s[1..]));
      BatchText(s[1..]);
      StripLetter(s[0], Extract(s[1..]).1, Bare(s[1..]));
    }
  }

  lemma ExtractLetter(s: string)
    requires s != "" && OpenerLen(s) == 0
    ensures Extract(s) == (Extract(s[1..]).0, [s[0]] + Extract(s[1..]).1)
  {
    hide OpenerLen, BlockLen;
  }

  lemma NothingLeft()
    ensures Bare("") == "" && Extract("") == ([], "") && StripOpeners(StripClosers("")) == "" && Parse("").blocks == []
  {
  }

  lemma {:induction false} BatchTextBlock(s: string, t: string)
    requires Tidy(s, 0) && Tagless(Bare(s)) && OpenerLen(s) > 0 && t == s[OpenerLen(s)..]
    ensures StripOpeners(StripClosers(Extract(s).1)) == Bare(s)
    decreases |s|, 0
  {
    hide FindClosingTag, OpenerLen, CloserLen, Consume, StripClosers, StripOpeners, BlockLen, Extract, Tagless, Bare,
      Parse,
      Tidy, MatchText, TrimSpace;
    var (i, k) := FindClosingTag(t);
    if i >= 0 {
      TidyBlock(s, t);
      PastBlock(s, t);
      ExtractBlock(s);
      BatchText(t[i + k..]);
    } else {
      BatchTextTail(s, t);
    }
  }

  lemma BatchTextTail(s: string, t: string)
    requires Tagless(Bare(s)) && OpenerLen(s) > 0 && t == s[OpenerLen(s)..] && FindClosingTag(t).0 < 0
    ensures StripOpeners(StripClosers(Extract(s).1)) == Bare(s)
  {
    hide FindClosingTag, OpenerLen, CloserLen, StripClosers, StripOpeners, Extract, Tagless, Bare, Parse,
      NoCloserBefore;
    OpenTail(s, t);
    NoMatch(s);
    StripNoCloser(s);
    StripOpener(s);
    StripTagless(t);
  }

  lemma ExtractBlock(s: string)
    requires s != "" && BlockLen(s) > 0
    ensures Extract(s) == ([s[..BlockLen(s)]] + Extract(s[BlockLen(s)..]).0, Extract(s[BlockLen(s)..]).1)
  {
    hide BlockLen;
  }

  lemma StripOpener(s: string)
    requires OpenerLen(s) > 0
    ensures StripOpeners(s) == StripOpeners(s[OpenerLen(s)..])
  {
    hide OpenerLen;
  }

  lemma {:induction false} StripNoCloser(s: string)
    requires NoCloserBefore(s, |s|)
    ensures StripClosers(s) == s
  {
    hide CloserLen;
    if s != "" {
      assert s[0..] == s;
      assert forall j :: 0 <= j < |s| - 1 ==> s[1..][j..] == s[j + 1..];
      StripNoCloser(s[1..]);
    }
  }

  /** The matches are the closed blocks. */
  lemma {:induction false} BatchBlocks(s: string)
    requires Tidy(s, 0)
    ensures |Extract(s).0| == |Parse(s).blocks| && ReasoningParts(Extract(s).0) == TrimmedParts(Parse(s).blocks)
    decreases |s|
  {
    hide FindClosingTag, OpenerLen, CloserLen, Consume, BlockLen, Extract, Bare, Parse, TrimSpace, MatchText;
    if s == "" {
      NothingLeft();
    } else if OpenerLen(s) > 0 {
      BatchBlocksBlock(s, s[OpenerLen(s)..]);
    } else if CloserLen(s) > 0 {
      AfterStray(s);
      StrayCopied(s);
      BatchBlocks(s[CloserLen(s)..]);
    } else {
      AfterLetter(s);
      ExtractLetter(s);
      BatchBlocks(s[1..]);
    }
  }

  lemma {:induction false} BatchBlocksBlock(s: string, t: string)
    requires Tidy(s, 0) && OpenerLen(s) > 0 && t == s[OpenerLen(s)..]
    ensures |Extract(s).0| == |Parse(s).blocks| && ReasoningParts(Extract(s).0) == TrimmedParts(Parse(s).blocks)
    decreases |s|, 0
  {
    hide FindClosingTag, OpenerLen, CloserLen, Consume, BlockLen, Extract, Bare, Parse, TrimSpace, MatchText, Tidy;
    var (i, k) := FindClosingTag(t);
    if i >= 0 {
      TidyBlock(s, t);
      PastBlock(s, t);
      ExtractBlock(s);
      BatchBlocks(t[i + k..]);
      assert ([s[..BlockLen(s)]] + Extract(t[i + k..]).0)[1..] == Extract(t[i + k..]).0;
      assert ([t[..i]] + Parse(t[i + k..]).blocks)[1..] == Parse(t[i + k..]).blocks;
    } else {
      OpenTail(s, t);
      NoMatch(s);
    }
  }

  // ---- Trimming ----

  lemma {:induction false} TrimLeftFirst(s: string)
    ensures TrimLeft(s) == "" || !IsSpace(TrimLeft(s)[0])
    ensures |TrimLeft(s)| <= |s|
    ensures s != "" && !IsSpace(s[|s| - 1]) ==> TrimLeft(s) != "" && TrimLeft(s)[|TrimLeft(s)| - 1] == s[|s| - 1]
  {
    hide IsSpace;
    if s != "" && IsSpace(s[0]) {
      if |s| > 1 { assert s[1..][|s| - 2] == s[|s| - 1]; }
      TrimLeftFirst(s[1..]);
    }
  }

  lemma {:induction false} TrimRightLast(s: string)
    ensures TrimRight(s) == "" || !IsSpace(TrimRight(s)[|TrimRight(s)| - 1])
    ensures TrimRight(TrimRight(s)) == TrimRight(s)
    ensures TrimRight(s) <= s
  {
    hide IsSpace;
    if s != "" && IsSpace(s[|s| - 1]) {
      TrimRightLast(s[..|s| - 1]);
    }
  }

  lemma TrimTwice(s: string)
    ensures TrimSpace(TrimSpace(s)) == TrimSpace(s)
  {
    hide IsSpace;
    TrimRightLast(s);
    TrimLeftFirst(TrimRight(s));
  }

  /** How many characters are no space. */
  function Letters(s: string): nat {
    if s == "" then 0 else (if IsSpace(s[0]) then 0 else 1) + Letters(s[1..])
  }

  lemma {:induction false} LettersAppend(a: string, b: string)
    ensures Letters(a + b) == Letters(a) + Letters(b)
  {
    hide IsSpace;
    if a == "" {
      assert a + b == b;
    } else {
      assert (a + b)[1..] == a[1..] + b;
      LettersAppend(a[1..], b);
    }
  }

  lemma {:induction false} TrimLeftLetters(s: string)
    ensures Letters(TrimLeft(s)) == Letters(s)
  {
    hide IsSpace;
    if s != "" { TrimLeftLetters(s[1..]); }
  }

  lemma {:induction false} TrimRightLetters(s: string)
    ensures Letters(TrimRight(s)) == Letters(s)
    decreases |s|
  {
    hide IsSpace;
    if s != "" && IsSpace(s[|s| - 1]) {
      var n := |s| - 1;
      TrimRightLetters(s[..n]);
      LettersAppend(s[..n], [s[n]]);
      assert s == s[..n] + [s[n]];
      assert [s[n]][1..] == "";
    }
  }

  /** Trimming loses no letter, so that text with letters cannot be trimmed away. */
  lemma TrimLetters(s: string)
    ensures Letters(TrimSpace(s)) == Letters(s)
  {
    TrimRightLetters(s);
    TrimLeftLetters(TrimRight(s));
  }

  lemma {:induction false} BlankRight(x: string, w: string)
    requires Letters(w) == 0
    ensures TrimRight(x + w) == TrimRight(x)
    decreases |w|
  {
    hide IsSpace;
    if w == "" {
      assert x + w == x;
    } else {
      var n := |w| - 1;
      LettersAppend(w[..n], [w[n]]);
      assert w == w[..n] + [w[n]] && [w[n]][1..] == "";
      BlankRight(x, w[..n]);
      assert (x + w)[..|x + w| - 1] == x + w[..n];
    }
  }

  lemma {:induction false} BlankTrimmed(s: string)
    ensures TrimSpace(s) == "" <==> Letters(s) == 0
  {
    hide IsSpace, TrimLeft, TrimRight;
    TrimLetters(s);
    TrimNothing();
    if Letters(s) == 0 {
      BlankRight("", s);
      assert "" + s == s;
    } else {
      assert TrimSpace(s) != "" by { NoLetters(); }
    }
  }

  lemma NoLetters()
    ensures Letters("") == 0
  {
  }

  /** More text changes what is left after trimming exactly if it is not blank. */
  lemma TrimMore(x: string, w: string)
    ensures TrimSpace(x + w) == TrimSpace(x) <==> TrimSpace(w) == ""
  {
    hide IsSpace, TrimLeft, TrimRight;
    BlankTrimmed(w);
    LettersAppend(x, w);
    TrimLetters(x + w);
    TrimLetters(x);
    if Letters(w) == 0 { BlankRight(x, w); }
  }

  // ---- The agreement ----

  lemma {:induction false} StripTagless(s: string)
    requires Tagless(s)
    ensures StripClosers(s) == s && StripOpeners(s) == s
  {
    hide OpenerLen, CloserLen;
    if s != "" {
      assert s[0..] == s;
      assert forall j :: 0 <= j < |s| - 1 ==> s[1..][j..] == s[j + 1..];
      StripTagless(s[1..]);
    }
  }

  lemma PartialIsVisible(s: string)
    requires HasIncompleteOpenTag(s)
    ensures s != "" && !IsSpace(s[|s| - 1])
  {
    hide HasIncompleteOpenTag, IsPartialOpener, IsSpace;
    IncompleteOpenTagIff(s);
    var j :| 0 <= j < |s| && IsPartialOpener(s[j..]);
    assert s[|s| - 1] == s[j..][|s| - j - 1];
    PartialLetters(s[j..]);
    LetterVisible(s[|s| - 1]);
  }

  lemma PartialLetters(t: string)
    requires IsPartialOpener(t)
    ensures t != "" && '<' <= t[|t| - 1] <= 'z'
  {
    assert t[|t| - 1] == if t < OPEN_THINK then OPEN_THINK[|t| - 1] else OPEN_THINKING[|t| - 1];
  }

  lemma LetterVisible(c: char)
    requires '<' <= c <= 'z'
    ensures !IsSpace(c)
  {
  }

  /** NormalizeContent on a tidy text: the text without blocks and tags, stray ones and that of a block that never ends
      included, and the texts of the closed blocks, or the backend's own reasoning if there is any. */
  lemma BatchOnTidy(text: string, reasoning: string)
    requires Tidy(text, 0) && Tagless(Parse(text).outside + Parse(text).pending)
    ensures var parsed := Parse(text);
      NormalizeContent(text, reasoning) ==
        (TrimSpace(parsed.outside + parsed.pending),
         if reasoning != "" then reasoning else Join(TrimmedParts(parsed.blocks), "\n"))
  {
    hide Tidy, OpenerLen, CloserLen, TrimSpace, Extract, Consume, StripClosers, StripOpeners, Tagless;
    BatchText(text);
    BatchBlocks(text);
    var (matches, rest) := Extract(text);
    TrimTwice(Bare(text));
    TrimNothing();
    if matches == [] { ExtractNothing(text); }
    if text == "" { NothingLeft(); }
  }

  lemma TrimNothing()
    ensures TrimSpace("") == ""
  {
  }

  lemma {:induction false} ExtractNothing(s: string)
    requires Extract(s).0 == []
    ensures Extract(s).1 == s
    decreases |s|
  {
    hide BlockLen;
    if s != "" {
      ExtractNothing(s[1..]);
    }
  }

  // ---- Text without any opening tag ----

  lemma {:induction false} NoOpenerParsed(s: string)
    requires NoOpenerBefore(s, |s|)
    ensures Extract(s) == ([], s) && StripClosers(s) == Parse(s).outside && Parse(s).pending == "" &&
      Parse(s).blocks == []
    decreases |s|
  {
    hide OpenerLen, CloserLen, Consume, BlockLen, Parse, Bare;
    if s == "" {
      NothingLeft();
      EmptyText();
    } else {
      assert s[0..] == s;
      ExtractLetter(s);
      NoOpenerTail(s, 1);
      if CloserLen(s) > 0 {
        var k := CloserLen(s);
        NoOpenerTail(s, k);
        StrayParsed(s);
        NoOpenerParsed(s[k..]);
        NoOpenerParsed(s[1..]);
      } else {
        LetterParsed(s);
        NoOpenerParsed(s[1..]);
      }
      assert [s[0]] + s[1..] == s;
    }
  }

  lemma EmptyText()
    ensures Parse("") == NOTHING && StripClosers("") == ""
  {
  }

  lemma NoOpenerTail(s: string, k: nat)
    requires NoOpenerBefore(s, |s|) && k <= |s|
    ensures NoOpenerBefore(s[k..], |s[k..]|)
  {
    hide OpenerLen;
    assert forall j :: 0 <= j < |s| - k ==> s[k..][j..] == s[k + j..];
  }

  lemma LetterParsed(s: string)
    requires s != "" && OpenerLen(s) == 0 && CloserLen(s) == 0
    ensures Parse(s).outside == [s[0]] + Parse(s[1..]).outside && Parse(s).pending == Parse(s[1..]).pending
    ensures Parse(s).blocks == Parse(s[1..]).blocks && StripClosers(s) == [s[0]] + StripClosers(s[1..])
  {
    hide OpenerLen, CloserLen, Consume;
    SayOne(NOTHING, s);
    ConsumeShift(NOTHING.Say([s[0]]), s[1..]);
    assert "" + [s[0]] == [s[0]] && [] + Parse(s[1..]).blocks == Parse(s[1..]).blocks;
  }

  lemma StrayParsed(s: string)
    requires OpenerLen(s) == 0 && CloserLen(s) > 0
    ensures var t := s[CloserLen(s)..];
      Parse(s).outside == Parse(t).outside && Parse(s).pending == Parse(t).pending &&
      Parse(s).blocks == Parse(t).blocks && StripClosers(s) == StripClosers(t)
  {
    hide OpenerLen, CloserLen, Consume;
    var t := s[CloserLen(s)..];
    TakeTag(NOTHING, s);
    ConsumeShift(NOTHING.Stray(), t);
    assert "" + Parse(t).outside == Parse(t).outside && [] + Parse(t).blocks == Parse(t).blocks;
  }

  lemma {:induction false} StripFewer(s: string)
    ensures Letters(StripOpeners(s)) <= Letters(s)
    ensures !NoOpenerBefore(s, |s|) ==> Letters(StripOpeners(s)) < Letters(s)
    decreases |s|
  {
    hide OpenerLen, IsSpace;
    if s != "" {
      var k := OpenerLen(s);
      if k > 0 {
        StripFewer(s[k..]);
        LettersAppend(s[..k], s[k..]);
        assert s == s[..k] + s[k..];
        assert Letters(s[..k]) > 0 by { LetterVisible('<'); assert s[..k][0] == '<'; }
      } else {
        StripFewer(s[1..]);
        LettersAppend([s[0]], StripOpeners(s[1..]));
        assert [s[0]][1..] == "" && ([s[0]] + StripOpeners(s[1..]))[1..] == StripOpeners(s[1..]);
        assert s[0..] == s && forall j :: 1 <= j < |s| ==> s[j..] == s[1..][j - 1..];
      }
    }
  }

  /** Main result for text without an opening tag, as models send it whose prompt opens the block: no reasoning is
      found, and the content is the outside text of the whole-text parser, trimmed, if and only if dropping the stray
      closing tags does not put an opening tag together. */
  lemma StrayTagsRemoved(text: string)
    requires NoOpenerBefore(text, |text|)
    ensures NormalizeContent(text, "").1 == ""
    ensures NormalizeContent(text, "").0 == TrimSpace(Parse(text).outside) <==>
      NoOpenerBefore(Parse(text).outside, |Parse(text).outside|)
  {
    hide Consume, TrimSpace, StripClosers, StripOpeners, Extract, OpenerLen;
    var outside := Parse(text).outside;
    NoOpenerParsed(text);
    StripFewer(outside);
    TrimLetters(outside);
    TrimLetters(StripOpeners(outside));
    if NoOpenerBefore(outside, |outside|) { StripNoOpener(outside); }
    TrimNothing();
    if text == "" { EmptyText(); }
  }

  lemma {:induction false} StripNoOpener(s: string)
    requires NoOpenerBefore(s, |s|)
    ensures StripOpeners(s) == s
  {
    hide OpenerLen;
    if s != "" {
      assert s[0..] == s;
      assert forall j :: 0 <= j < |s| - 1 ==> s[1..][j..] == s[j + 1..];
      StripNoOpener(s[1..]);
    }
  }

  /** An opening tag put together from the text around a stray closing tag is removed as well. */
  lemma JoinedTagRemoved()
    ensures var text := "<thi" + CLOSE_THINK + "nk>y";
      NormalizeContent(text, "").0 != TrimSpace(Parse(text).outside)
  {
    hide Consume, TrimSpace, NormalizeContent;
    var text := "<thi" + CLOSE_THINK + "nk>y";
    assert NoOpenerBefore(text, |text|) by { JoinedHasNoOpener(text); }
    JoinedParsed(text);
    var outside := OPEN_THINK + "y";
    assert OpenerLen(outside[0..]) > 0 by { assert outside[..7] == OPEN_THINK && outside[0..] == outside; }
    StrayTagsRemoved(text);
  }

  lemma JoinedHasNoOpener(text: string)
    requires text == "<thi" + CLOSE_THINK + "nk>y"
    ensures NoOpenerBefore(text, |text|)
  {
    hide OpenerLen;
    forall j | 0 <= j < |text| ensures OpenerLen(text[j..]) == 0 {
      assert text[j..][0] == text[j];
      assert j < 4 ==> text[j] == "<thi"[j];
      assert 4 <= j < 12 ==> text[j] == CLOSE_THINK[j - 4];
      assert 12 <= j ==> text[j] == "nk>y"[j - 12];
      if text[j] == '<' {
        assert j == 0 || j == 4;
        if j == 0 { assert text[0..] == text; InnerBracket(text); }
        if j == 4 { assert text[4..][1] == '/'; }
      }
    }
  }

  lemma InnerBracket(s: string)
    requires |s| > 4 && s[4] == '<'
    ensures OpenerLen(s) == 0
  {
    hide OpenerLen;
    OpenerKind(s);
  }

  lemma JoinedParsed(text: string)
    requires text == "<thi" + CLOSE_THINK + "nk>y"
    ensures Parse(text).outside == OPEN_THINK + "y"
  {
    hide OpenerLen, CloserLen, Consume, StripClosers, Extract;
    JoinedHasNoOpener(text);
    NoOpenerParsed(text);
    var t := CLOSE_THINK + "nk>y";
    StripFront("<thi", t);
    assert CloserLen(t) == 8 by { CloserAtFront("nk>y"); }
    assert t[8..] == "nk>y";
    StripAt(t);
    StripFront("nk>y", "");
    assert "nk>y" + "" == "nk>y";
    EmptyText();
    assert "<thi" + t == text;
  }

  lemma CloserAtFront(rest: string)
    ensures CloserLen(CLOSE_THINK + rest) == 8
  {
    assert (CLOSE_THINK + rest)[..8] == CLOSE_THINK;
  }

  lemma StripAt(s: string)
    requires CloserLen(s) > 0
    ensures StripClosers(s) == StripClosers(s[CloserLen(s)..])
  {
    hide CloserLen;
  }

  /** Up to four letters that no closing tag can begin with. */
  lemma {:induction false} StripFront(x: string, rest: string)
    requires forall i :: 0 <= i < |x| && x[i] == '<' ==> i + 1 < |x| && x[i + 1] != '/'
    ensures StripClosers(x + rest) == x + StripClosers(rest)
  {
    hide CloserLen;
    if x == "" {
      assert x + rest == rest && x + StripClosers(rest) == StripClosers(rest);
    } else {
      var s := x + rest;
      assert s[1..] == x[1..] + rest && s[0] == x[0];
      assert |x| > 1 ==> s[1] == x[1];
      assert CloserLen(s) == 0;
      StripFront(x[1..], rest);
      assert [x[0]] + (x[1..] + StripClosers(rest)) == x + StripClosers(rest);
    }
  }

  // ---- Streamed and complete ----

  lemma {:induction false} TrimmedAppend(a: seq<string>, b: seq<string>)
    ensures TrimmedParts(a + b) == TrimmedParts(a) + TrimmedParts(b)
  {
    hide TrimSpace;
    if a == [] {
      assert a + b == b;
    } else {
      assert (a + b)[1..] == a[1..] + b;
      TrimmedAppend(a[1..], b);
    }
  }

  lemma {:induction false} JoinLonger(a: seq<string>, x: string)
    requires x != ""
    ensures |Join(a + [x], "\n")| > |Join(a, "\n")|
  {
    if |a| > 1 {
      assert (a + [x])[1..] == a[1..] + [x];
      JoinLonger(a[1..], x);
    } else if |a| == 1 {
      assert (a + [x])[1..] == [x] && (a + [x])[0] == a[0];
    } else {
      assert a + [x] == [x];
    }
  }

  /** One more block counts unless it is blank. */
  lemma OneMoreBlock(blocks: seq<string>, pending: string)
    ensures var all := blocks + (if pending == "" then [] else [pending]);
      Join(TrimmedParts(all), "\n") == Join(TrimmedParts(blocks), "\n") <==> TrimSpace(pending) == ""
  {
    hide TrimSpace, Join, TrimmedParts;
    TrimNothing();
    if pending == "" {
      assert blocks + [] == blocks;
    } else {
      TrimmedAppend(blocks, [pending]);
      OneTrimmed(pending);
      if TrimSpace(pending) == "" {
        assert TrimmedParts(blocks) + [] == TrimmedParts(blocks);
      } else {
        JoinLonger(TrimmedParts(blocks), TrimSpace(pending));
      }
    }
  }

  lemma OneTrimmed(block: string)
    ensures TrimmedParts([block]) == if TrimSpace(block) != "" then [TrimSpace(block)] else []
  {
    hide TrimSpace;
    assert [block][1..] == [];
  }

  /** Main result: for every tidy text whose bare text spells no tag, and every chunking that cuts no closing tag, the
      batch parser and the trimmed stream agree on the reasoning exactly unless a block that is not blank never ends;
      without stray closing tags they agree on the content under the same condition if the text ends in a block, and
      otherwise exactly if it does not end like an unfinished opening tag. */
  lemma StreamMatchesBatch(chunks: seq<string>)
    requires Uncut("", chunks) && Tidy(Concat(chunks), 0)
    requires var parsed := Parse(Concat(chunks)); Tagless(parsed.outside + parsed.pending)
    ensures var ((content, reasoning), all) := (NormalizeContent(Concat(chunks), ""), Complete(chunks));
      var parsed := Parse(Concat(chunks));
      (reasoning == Join(TrimmedParts(Blocks(all)), "\n") <==> TrimSpace(parsed.pending) == "") &&
      (parsed.strays == 0 ==>
         (content == TrimSpace(Texts(all)) <==>
            if parsed.inBlock then TrimSpace(parsed.pending) == "" else !HasIncompleteOpenTag(Concat(chunks))))
  {
    hide Uncut, Tidy, Tagless, Parse, NormalizeContent, Join, TrimmedParts, TrimSpace, HasIncompleteOpenTag, IsSpace,
      Stream, Complete, Texts, Blocks;
    var (text, parsed) := (Concat(chunks), Parse(Concat(chunks)));
    BatchOnTidy(text, "");
    CompleteStream(chunks);
    OneMoreBlock(parsed.blocks, parsed.pending);
    TrimMore(parsed.outside, parsed.pending);
    if parsed.strays == 0 && !parsed.inBlock {
      assert parsed.outside + "" == parsed.outside;
      if HasIncompleteOpenTag(text) { LostEnd(chunks); }
    }
  }

  lemma LostEnd(chunks: seq<string>)
    requires Uncut("", chunks) && Parse(Concat(chunks)).strays == 0 && !Parse(Concat(chunks)).inBlock
    requires HasIncompleteOpenTag(Concat(chunks))
    ensures TrimSpace(Parse(Concat(chunks)).outside) != TrimSpace(Texts(Complete(chunks)))
  {
    hide Uncut, Parse, TrimSpace, HasIncompleteOpenTag, IsSpace, Stream, Tagless, Letters;
    var (p, events) := Stream(START, chunks);
    ChunkRefinement(chunks);
    ContentIff(chunks);
    WithholdsIff(chunks);
    EventAppend(events, Finish(p).1);
    FinishEvents(p);
    assert Texts(events) + "" == Texts(events);
    StreamWithheld(START, chunks);
    PartialIsVisible(p.openBuffer);
    LastLetter(p.openBuffer);
    BlankTrimmed(p.openBuffer);
    TrimMore(Texts(events), p.openBuffer);
  }

  lemma LastLetter(s: string)
    requires s != "" && !IsSpace(s[|s| - 1])
    ensures Letters(s) > 0
  {
    hide IsSpace;
    var n := |s| - 1;
    LettersAppend(s[..n], [s[n]]);
    assert s == s[..n] + [s[n]];
  }

  lemma {:induction false} StreamWithheld(p: Parser, chunks: seq<string>)
    requires p.Valid() && (p.openBuffer != "" ==> HasIncompleteOpenTag(p.openBuffer))
    ensures var w := Stream(p, chunks).0.openBuffer; w != "" ==> HasIncompleteOpenTag(w)
    decreases chunks
  {
    hide Scan, HasIncompleteOpenTag, Tagless;
    if chunks != [] {
      Withheld(p.inBlock, p.tagBuffer, p.openBuffer + chunks[0]);
      StreamWithheld(Feed(p, chunks[0]).0, chunks[1..]);
    }
  }
}
