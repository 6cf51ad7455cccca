/** NormalizeContent, the parser for complete answers (normalize.go). */
module BatchNormalizer {
  import opened Strings
  import opened Tags

  /** unicode.IsSpace */
  predicate IsSpace(c: char) {
    c == ' ' || '\t' <= c <= '\r' || c == '\U{85}' || c == '\U{A0}' || c == '\U{1680}' ||
    '\U{2000}' <= c <= '\U{200A}' || c == '\U{2028}' || c == '\U{2029}' || c == '\U{202F}' ||
    c == '\U{205F}' || c == '\U{3000}'
  }

  function TrimLeft(s: string): string {
    if s != "" && IsSpace(s[0]) then TrimLeft(s[1..]) else s
  }

  function TrimRight(s: string): string {
    if s != "" && IsSpace(s[|s| - 1]) then TrimRight(s[..|s| - 1]) else s
  }

  function TrimSpace(s: string): string {
    TrimLeft(TrimRight(s))
  }

  function TrimPrefix(s: string, t: string): string {
    if HasPrefix(s, t) then s[|t|..] else s
  }

  function TrimSuffix(s: string, t: string): string {
    if HasSuffix(s, t) then s[..|s| - |t|] else s
  }

  function Join(parts: seq<string>, separator: string): string {
    if parts == [] then ""
    else if |parts| == 1 then parts[0]
    else parts[0] + separator + Join(parts[1..], separator)
  }

  /** Length of the match of thinkingTagRegex at the head of `s`, 0 if it does not match there. */
  function BlockLen(s: string): (k: nat)
    ensures k <= |s|
    ensures k > 0 ==> OpenerLen(s) > 0
  {
    if HasPrefix(s, OPEN_THINK) then
      var end := Index(s[7..], CLOSE_THINK);
      if end < 0 then 0 else 7 + end + 8
    else if HasPrefix(s, OPEN_THINKING) then
      var end := Index(s[10..], CLOSE_THINKING);
      if end < 0 then 0 else 10 + end + 11
    else 0
  }

  /** FindAllString and ReplaceAllString in one pass: the matches, and the text without them. */
  function Extract(s: string): (seq<string>, string)
    decreases |s|
  {
    if s == "" then ([], "")
    else if BlockLen(s) > 0 then
      var (matches, rest) := Extract(s[BlockLen(s)..]);
      ([s[..BlockLen(s)]] + matches, rest)
    else
      var (matches, rest) := Extract(s[1..]);
      (matches, [s[0]] + rest)
  }

  function StripClosers(s: string): string
    decreases |s|
  {
    if s == "" then ""
    else if CloserLen(s) > 0 then StripClosers(s[CloserLen(s)..])
    else [s[0]] + StripClosers(s[1..])
  }

  function StripOpeners(s: string): string
    decreases |s|
  {
    if s == "" then ""
    else if OpenerLen(s) > 0 then StripOpeners(s[OpenerLen(s)..])
    else [s[0]] + StripOpeners(s[1..])
  }

  function RemoveStandaloneTags(s: string): string {
    TrimSpace(StripOpeners(StripClosers(s)))
  }

  function MatchText(m: string): string {
    TrimSpace(TrimSuffix(TrimSuffix(TrimPrefix(TrimPrefix(m, OPEN_THINK), OPEN_THINKING), CLOSE_THINK), CLOSE_THINKING))
  }

  /** The trimmed texts that are not empty. */
  function ReasoningParts(matches: seq<string>): seq<string> {
    if matches == [] then []
    else (if MatchText(matches[0]) != "" then [MatchText(matches[0])] else []) + ReasoningParts(matches[1..])
  }

  /** Reasoning first, as in the source. */
  function ExtractThinkingTags(content: string): (string, string) {
    var (matches, rest) := Extract(content);
    if matches == [] then ("", RemoveStandaloneTags(content))
    else (Join(ReasoningParts(matches), "\n"), TrimSpace(RemoveStandaloneTags(rest)))
  }

  /** Content first, as in the source. */
  function NormalizeContent(content: string, reasoningContent: string): (string, string) {
    if content == "" then (content, reasoningContent)
    else
      var (extracted, remaining) := ExtractThinkingTags(content);
      (remaining, if reasoningContent != "" then reasoningContent else extracted)
  }

  // ---- The library functions ----

  lemma {:induction false} TrimRightLaw(s: string) returns (b: nat)
    ensures b <= |s| && TrimRight(s) == s[..b]
    ensures (forall i :: b <= i < |s| ==> IsSpace(s[i])) && (b > 0 ==> !IsSpace(s[b - 1]))
    decreases |s|
  {
    hide IsSpace;
    b := |s|;
    if s != "" && IsSpace(s[|s| - 1]) {
      b := TrimRightLaw(s[..|s| - 1]);
      assert s[..|s| - 1][..b] == s[..b];
    }
  }

  lemma {:induction false} TrimLeftLaw(s: string) returns (a: nat)
    ensures a <= |s| && TrimLeft(s) == s[a..]
    ensures (forall i :: 0 <= i < a ==> IsSpace(s[i])) && (a < |s| ==> !IsSpace(s[a]))
    decreases |s|
  {
    hide IsSpace;
    a := 0;
    if s != "" && IsSpace(s[0]) {
      a := TrimLeftLaw(s[1..]);
      assert s[1..][a..] == s[a + 1..] && forall i :: 0 < i <= a ==> s[i] == s[1..][i - 1];
      a := a + 1;
    }
  }

  /** TrimSpace cuts off spaces, all of them at both ends, and nothing else. */
  lemma TrimLaw(s: string) returns (a: nat, b: nat)
    ensures a <= b <= |s| && TrimSpace(s) == s[a..b]
    ensures forall i :: 0 <= i < a || b <= i < |s| ==> IsSpace(s[i])
    ensures a < b ==> !IsSpace(s[a]) && !IsSpace(s[b - 1])
  {
    hide IsSpace, TrimLeft, TrimRight;
    b := TrimRightLaw(s);
    a := TrimLeftLaw(s[..b]);
    assert s[..b][a..] == s[a..b];
  }

  /** Join puts the separator between any two neighbours. */
  lemma {:induction false} JoinAppend(a: seq<string>, b: seq<string>, separator: string)
    ensures Join(a + b, separator) ==
      Join(a, separator) + (if a == [] || b == [] then "" else separator) + Join(b, separator)
    decreases |a|
  {
    if a == [] {
      assert a + b == b;
    } else if b == [] {
      assert a + b == a;
    } else {
      assert (a + b)[1..] == a[1..] + b;
      JoinAppend(a[1..], b, separator);
      if |a| == 1 { assert a[1..] + b == b; }
    }
  }
}
