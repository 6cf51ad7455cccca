/** StreamNormalizer: splits streamed text into content and reasoning (normalize.go). */
module Normalizer {
  import opened Strings
  import opened Tags

  /** What the two callbacks receive, in order. */
  datatype Emission = Content(text: string) | Reasoning(text: string)

  /** What the tag parser finds in a buffer: plain text, the text of a closed block,
      or text thrown away together with a closing tag that closes nothing. */
  datatype Event = Text(s: string) | Block(s: string) | Lost(s: string)

  /** The parser part of the normaliser's state. */
  datatype Parser = Parser(inBlock: bool, tagBuffer: string, openBuffer: string) {
    predicate Valid() {
      (inBlock ==> openBuffer == "") && (!inBlock ==> tagBuffer == "")
    }
  }

  const START := Parser(false, "", "")

  /** Parses one buffer to its end, starting inside a block holding `tagBuffer` or outside any block. */
  function Scan(inBlock: bool, tagBuffer: string, s: string): (r: (Parser, seq<Event>))
    requires !inBlock ==> tagBuffer == ""
    ensures r.0.Valid()
    decreases |s|
  {
    if s == "" then (Parser(inBlock, tagBuffer, ""), [])
    else if inBlock then
      var (i, k) := FindClosingTag(s);
      if i < 0 then (Parser(true, tagBuffer + s, ""), [])
      else
        var (p, rest) := Scan(false, "", s[i + k..]);
        (p, [Block(tagBuffer + s[..i])] + rest)
    else if StandaloneClosingTag(s).0 then
      var (p, rest) := Scan(false, "", s[StandaloneClosingTag(s).1..]);
      (p, [Lost(s[..FindClosingTag(s).0])] + rest)
    else
      var (i, k) := FindOpeningTag(s);
      if i < 0 then
        if HasIncompleteOpenTag(s) then (Parser(false, "", s), [])
        else (Parser(false, "", ""), [Text(s)])
      else
        var (p, rest) := Scan(true, "", s[i + k..]);
        (p, (if i > 0 then [Text(s[..i])] else []) + rest)
  }

  /** One chunk: the withheld opening fragment is put back in front first. */
  function Chunk(p: Parser, content: string): (Parser, seq<Event>)
    requires p.Valid()
  {
    Scan(p.inBlock, p.tagBuffer, p.openBuffer + content)
  }

  /** An empty content argument leaves the parser alone. */
  function Feed(p: Parser, content: string): (r: (Parser, seq<Event>))
    requires p.Valid()
    ensures r.0.Valid()
  {
    if content == "" then (p, []) else Chunk(p, content)
  }

  /** End of stream: an unfinished block counts as a block, a withheld fragment stays withheld. */
  function Finish(p: Parser): (r: (Parser, seq<Event>))
    requires p.Valid()
    ensures r.0.Valid()
  {
    if p.inBlock && p.tagBuffer != "" then (Parser(false, "", p.openBuffer), [Block(p.tagBuffer)])
    else (p, [])
  }

  /** The callback that one event triggers: a backend that sends reasoning itself silences the tags' text. */
  function Shown(e: Event, hasReasoning: bool): seq<Emission> {
    match e
    case Text(s) => [Content(s)]
    case Block(s) => if hasReasoning then [] else [Reasoning(s)]
    case Lost(_) => []
  }

  function Visible(events: seq<Event>, hasReasoning: bool): seq<Emission> {
    if events == [] then [] else Shown(events[0], hasReasoning) + Visible(events[1..], hasReasoning)
  }

  lemma VisibleStep(e: Event, rest: seq<Event>, hasReasoning: bool)
    ensures Visible([e] + rest, hasReasoning) == Shown(e, hasReasoning) + Visible(rest, hasReasoning)
  {
    assert ([e] + rest)[1..] == rest;
  }

  /** The whole state of the normaliser. */
  datatype State = State(parser: Parser, hasReasoning: bool)

  function Deliver(n: State, content: string, reasoning: string): (r: (State, seq<Emission>))
    requires n.parser.Valid()
    ensures r.0.parser.Valid()
  {
    var hasReasoning := n.hasReasoning || reasoning != "";
    var (p, events) := Feed(n.parser, content);
    (State(p, hasReasoning),
     (if reasoning == "" then [] else [Reasoning(reasoning)]) + Visible(events, hasReasoning))
  }

  function Close(n: State): (r: (State, seq<Emission>))
    requires n.parser.Valid()
    ensures r.0.parser.Valid()
  {
    var (p, events) := Finish(n.parser);
    (State(p, n.hasReasoning), Visible(events, n.hasReasoning))
  }

  // One lemma for each way in which the loop of `ProcessContentChunk` goes on.

  lemma CloseStep(tagBuffer: string, s: string, hasReasoning: bool)
    requires s != "" && FindClosingTag(s).0 >= 0
    ensures var (i, k) := FindClosingTag(s);
      var (next, all) := (Scan(false, "", s[i + k..]), Scan(true, tagBuffer, s));
      all.0 == next.0 &&
      Visible(all.1, hasReasoning) ==
        (if hasReasoning then [] else [Reasoning(tagBuffer + s[..i])]) + Visible(next.1, hasReasoning)
  {
    hide FindClosingTag, FindOpeningTag, StandaloneClosingTag, HasIncompleteOpenTag;
    var (i, k) := FindClosingTag(s);
    VisibleStep(Block(tagBuffer + s[..i]), Scan(false, "", s[i + k..]).1, hasReasoning);
  }

  lemma StrayStep(s: string, hasReasoning: bool)
    requires s != "" && StandaloneClosingTag(s).0
    ensures var (next, all) := (Scan(false, "", s[StandaloneClosingTag(s).1..]), Scan(false, "", s));
      all.0 == next.0 && Visible(all.1, hasReasoning) == Visible(next.1, hasReasoning)
  {
    hide FindClosingTag, FindOpeningTag, StandaloneClosingTag, HasIncompleteOpenTag;
    var rest := Scan(false, "", s[StandaloneClosingTag(s).1..]).1;
    VisibleStep(Lost(s[..FindClosingTag(s).0]), rest, hasReasoning);
  }

  lemma OpenStep(s: string, hasReasoning: bool)
    requires s != "" && !StandaloneClosingTag(s).0 && FindOpeningTag(s).0 >= 0
    ensures var (i, k) := FindOpeningTag(s);
      var (next, all) := (Scan(true, "", s[i + k..]), Scan(false, "", s));
      all.0 == next.0 &&
      Visible(all.1, hasReasoning) == (if i > 0 then [Content(s[..i])] else []) + Visible(next.1, hasReasoning)
  {
    hide FindClosingTag, FindOpeningTag, StandaloneClosingTag, HasIncompleteOpenTag;
    var (i, k) := FindOpeningTag(s);
    VisibleStep(Text(s[..i]), Scan(true, "", s[i + k..]).1, hasReasoning);
    if i == 0 {
      assert [] + Scan(true, "", s[i + k..]).1 == Scan(true, "", s[i + k..]).1;
    }
  }

  lemma PlainEnd(s: string, hasReasoning: bool)
    requires s != "" && !StandaloneClosingTag(s).0 && FindOpeningTag(s).0 < 0
    ensures Scan(false, "", s).0 == Parser(false, "", if HasIncompleteOpenTag(s) then s else "")
    ensures Visible(Scan(false, "", s).1, hasReasoning) == if HasIncompleteOpenTag(s) then [] else [Content(s)]
  {
    hide FindClosingTag, FindOpeningTag, StandaloneClosingTag, HasIncompleteOpenTag;
    VisibleStep(Text(s), [], hasReasoning);
  }

  lemma BufferEnd(inBlock: bool, tagBuffer: string, s: string, hasReasoning: bool)
    requires !inBlock ==> tagBuffer == ""
    requires s == "" || (inBlock && FindClosingTag(s).0 < 0)
    ensures Scan(inBlock, tagBuffer, s).0 == Parser(inBlock, tagBuffer + s, "")
    ensures Visible(Scan(inBlock, tagBuffer, s).1, hasReasoning) == []
  {
    hide FindClosingTag, FindOpeningTag, StandaloneClosingTag, HasIncompleteOpenTag;
    if s == "" { assert tagBuffer + s == tagBuffer; }
  }

  class StreamNormalizer {
    var inThinkTag: bool
    var tagBuffer: string
    var contentBuffer: string
    var hasReasoning: bool
    var reasoningAccum: string
    var openTagBuffer: string

    /** `contentBuffer` is empty in every reachable state. */
    ghost predicate Valid()
      reads this
    {
      contentBuffer == "" && Parsing().Valid()
    }

    ghost function Parsing(): Parser
      reads this
    {
      Parser(inThinkTag, tagBuffer, openTagBuffer)
    }

    ghost function Current(): State
      reads this
    {
      State(Parsing(), hasReasoning)
    }

    constructor ()
      ensures Valid() && Current() == State(START, false)
    {
      inThinkTag, tagBuffer, contentBuffer := false, "", "";
      hasReasoning, reasoningAccum, openTagBuffer := false, "", "";
    }

    method FlushContentBuffer() returns (out: seq<Emission>)
      modifies this`contentBuffer
      ensures contentBuffer == ""
      ensures out == if old(contentBuffer) == "" then [] else [Content(old(contentBuffer))]
    {
      out := [];
      if contentBuffer != "" {
        out := [Content(contentBuffer)];
        contentBuffer := "";
      }
    }

    /** Buffered content goes out before anything else does. */
    method Emit(e: Emission) returns (out: seq<Emission>)
      modifies this`contentBuffer
      ensures contentBuffer == ""
      ensures out == if old(contentBuffer) == "" then [e] else [Content(old(contentBuffer)), e]
    {
      out := FlushContentBuffer();
      out := out + [e];
    }

    method ProcessChunk(content: string, reasoningContent: string) returns (out: seq<Emission>)
      requires Valid()
      modifies this
      ensures Valid()
      ensures Current() == Deliver(old(Current()), content, reasoningContent).0
      ensures out == Deliver(old(Current()), content, reasoningContent).1
      ensures reasoningAccum == old(reasoningAccum) + reasoningContent
    {
      out := [];
      if content == "" && reasoningContent == "" {
        return;
      }
      if reasoningContent != "" {
        hasReasoning := true;
        reasoningAccum := reasoningAccum + reasoningContent;
        out := out + [Reasoning(reasoningContent)];
      }
      if content != "" {
        var parsed := ProcessContentChunk(content);
        out := out + parsed;
      }
    }

    /** What is left to do for the unread rest of a buffer: the final parser and the emissions. */
    ghost function Remaining(remaining: string): (Parser, seq<Emission>)
      requires Valid()
      reads this
    {
      if remaining == "" then (Parsing(), [])
      else
        var (p, events) := Scan(inThinkTag, tagBuffer, remaining);
        (p, Visible(events, hasReasoning))
    }

    method ProcessContentChunk(chunk: string) returns (out: seq<Emission>)
      requires Valid()
      modifies this
      ensures Valid()
      ensures hasReasoning == old(hasReasoning) && reasoningAccum == old(reasoningAccum)
      ensures Parsing() == Chunk(old(Parsing()), chunk).0
      ensures out == Visible(Chunk(old(Parsing()), chunk).1, hasReasoning)
    {
      hide FindClosingTag, FindOpeningTag, StandaloneClosingTag, HasIncompleteOpenTag;
      var remaining := openTagBuffer + chunk;
      openTagBuffer := "";
      out := [];
      ghost var all := Remaining(remaining);
      while |remaining| > 0
        invariant Valid() && (remaining != "" ==> openTagBuffer == "")
        invariant hasReasoning == old(hasReasoning) && reasoningAccum == old(reasoningAccum)
        invariant all.0 == Remaining(remaining).0
        invariant all.1 == out + Remaining(remaining).1
        decreases |remaining|
      {
        var emitted;
        ghost var was, done := Remaining(remaining).1, out;
        if inThinkTag {
          remaining, emitted := InsideBlock(remaining);
        } else {
          remaining, emitted := OutsideBlock(remaining);
        }
        out := out + emitted;
        assert done + (emitted + Remaining(remaining).1) == out + Remaining(remaining).1;
      }
    }

    /** One turn of the loop inside a block: up to the closing tag, or everything. */
    method InsideBlock(remaining: string) returns (rest: string, out: seq<Emission>)
      requires Valid() && remaining != "" && inThinkTag
      modifies this
      ensures Valid() && openTagBuffer == ""
      ensures hasReasoning == old(hasReasoning) && reasoningAccum == old(reasoningAccum)
      ensures |rest| < |remaining|
      ensures old(Remaining(remaining)).0 == Remaining(rest).0
      ensures old(Remaining(remaining)).1 == out + Remaining(rest).1
    {
      hide Scan, Visible, NoOpenerBefore, NoCloserBefore, OpenerLen, CloserLen, FindClosingTag, FindOpeningTag,
        StandaloneClosingTag, HasIncompleteOpenTag;
      out := [];
      var (endIdx, endLen) := FindClosingTag(remaining);
      if endIdx == -1 {
        BufferEnd(true, tagBuffer, remaining, hasReasoning);
        tagBuffer := tagBuffer + remaining;
        return "", out;
      }
      CloseStep(tagBuffer, remaining, hasReasoning);
      tagBuffer := tagBuffer + remaining[..endIdx];
      if !hasReasoning {
        out := Emit(Reasoning(tagBuffer));
      }
      tagBuffer := "";
      inThinkTag := false;
      rest := remaining[endIdx + endLen..];
      BufferEnd(false, "", "", hasReasoning);
    }

    /** One turn of the loop outside a block. */
    method OutsideBlock(remaining: string) returns (rest: string, out: seq<Emission>)
      requires Valid() && remaining != "" && !inThinkTag && openTagBuffer == ""
      modifies this
      ensures Valid() && (rest != "" ==> openTagBuffer == "")
      ensures hasReasoning == old(hasReasoning) && reasoningAccum == old(reasoningAccum)
      ensures |rest| < |remaining|
      ensures old(Remaining(remaining)).0 == Remaining(rest).0
      ensures old(Remaining(remaining)).1 == out + Remaining(rest).1
    {
      hide Scan, Visible, NoOpenerBefore, NoCloserBefore, OpenerLen, CloserLen, FindClosingTag, FindOpeningTag,
        StandaloneClosingTag, HasIncompleteOpenTag;
      out := [];
      BufferEnd(false, "", "", hasReasoning);
      var (standalone, endPos) := StandaloneClosingTag(remaining);
      if standalone {
        StrayStep(remaining, hasReasoning);
        return remaining[endPos..], out;
      }
      var (startIdx, openLen) := FindOpeningTag(remaining);
      if startIdx < 0 {
        PlainEnd(remaining, hasReasoning);
        if HasIncompleteOpenTag(remaining) {
          openTagBuffer := remaining;
          return "", out;
        }
        out := Emit(Content(remaining));
        return "", out;
      }
      OpenStep(remaining, hasReasoning);
      if startIdx > 0 {
        out := Emit(Content(remaining[..startIdx]));
      }
      var emitted;
      rest, emitted := EnterBlock(remaining[startIdx + openLen..]);
      ghost var before := out;
      out := out + emitted;
      assert before + (emitted + Remaining(rest).1) == out + Remaining(rest).1;
    }

    /** The second half of that turn, behind an opening tag: a block closed in the same buffer, or still open. */
    method EnterBlock(tagContent: string) returns (rest: string, out: seq<Emission>)
      requires Valid() && !inThinkTag && openTagBuffer == ""
      modifies this
      ensures Valid() && openTagBuffer == ""
      ensures hasReasoning == old(hasReasoning) && reasoningAccum == old(reasoningAccum)
      ensures |rest| <= |tagContent|
      ensures Scan(true, "", tagContent).0 == Remaining(rest).0
      ensures Visible(Scan(true, "", tagContent).1, hasReasoning) == out + Remaining(rest).1
    {
      hide Scan, Visible, NoOpenerBefore, NoCloserBefore, OpenerLen, CloserLen, FindClosingTag, FindOpeningTag,
        StandaloneClosingTag, HasIncompleteOpenTag;
      out := [];
      var (endIdx, endLen) := FindClosingTag(tagContent);
      if endIdx == -1 {
        BufferEnd(true, "", tagContent, hasReasoning);
        assert "" + tagContent == tagContent;
        inThinkTag := true;
        tagBuffer := tagContent;
        return "", out;
      }
      CloseStep("", tagContent, hasReasoning);
      assert "" + tagContent[..endIdx] == tagContent[..endIdx];
      if !hasReasoning {
        out := Emit(Reasoning(tagContent[..endIdx]));
      }
      rest := tagContent[endIdx + endLen..];
      BufferEnd(false, "", "", hasReasoning);
    }

    method Flush() returns (out: seq<Emission>)
      requires Valid()
      modifies this
      ensures Valid()
      ensures Current() == Close(old(Current())).0
      ensures out == Close(old(Current())).1
      ensures reasoningAccum == old(reasoningAccum)
    {
      out := [];
      if inThinkTag && tagBuffer != "" {
        if !hasReasoning {
          var emitted := Emit(Reasoning(tagBuffer));
          out := out + emitted;
        }
        VisibleStep(Block(tagBuffer), [], hasReasoning);
        assert [Block(tagBuffer)] + [] == [Block(tagBuffer)];
        tagBuffer := "";
        inThinkTag := false;
      }
      assert out == Close(old(Current())).1;
      var flushed := FlushContentBuffer();
      out := out + flushed;
    }
  }
}
