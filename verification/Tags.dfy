/** The thinking tags and the functions that look for them (normalize.go). */
module Tags {
  import opened Strings

  const OPEN_THINK := "<think>"
  const OPEN_THINKING := "<thinking>"
  const CLOSE_THINK := "</think>"
  const CLOSE_THINKING := "</thinking>"

  /** Length of the opening tag that `s` begins with, 0 if it begins with none. */
  function OpenerLen(s: string): (k: nat)
    ensures k > 0 ==> 2 <= k <= |s| && s[0] == '<' && s[1] != '/' && s[k - 1] == '>'
    ensures k > 0 ==> forall i :: 0 < i < k ==> s[i] != '<'
  {
    if HasPrefix(s, OPEN_THINK) then
      assert forall i :: 0 <= i < 7 ==> s[i] == s[..7][i];
      7
    else if HasPrefix(s, OPEN_THINKING) then
      assert forall i :: 0 <= i < 10 ==> s[i] == s[..10][i];
      10
    else 0
  }

  /** Length of the closing tag that `s` begins with, 0 if it begins with none. */
  function CloserLen(s: string): (k: nat)
    ensures k > 0 ==> 2 <= k <= |s| && s[0] == '<' && s[1] == '/' && s[k - 1] == '>'
    ensures k > 0 ==> forall i :: 0 < i < k ==> s[i] != '<'
  {
    if HasPrefix(s, CLOSE_THINK) then
      assert forall i :: 0 <= i < 8 ==> s[i] == s[..8][i];
      8
    else if HasPrefix(s, CLOSE_THINKING) then
      assert forall i :: 0 <= i < 11 ==> s[i] == s[..11][i];
      11
    else 0
  }

  predicate NoOpenerBefore(s: string, n: int) {
    forall j :: 0 <= j < n && j < |s| ==> OpenerLen(s[j..]) == 0
  }

  predicate NoCloserBefore(s: string, n: int) {
    forall j :: 0 <= j < n && j < |s| ==> CloserLen(s[j..]) == 0
  }

  lemma OpenerOccurs(s: string, j: nat)
    requires j <= |s|
    ensures OccursAt(s, j, OPEN_THINK) <==> OpenerLen(s[j..]) == 7
    ensures OccursAt(s, j, OPEN_THINKING) <==> OpenerLen(s[j..]) == 10
  {
    if j + 7 <= |s| { assert s[j..][..7] == s[j..j + 7]; }
    if j + 10 <= |s| { assert s[j..][..10] == s[j..j + 10]; }
    if OccursAt(s, j, OPEN_THINKING) {
      assert s[j..j + 10][6] == s[j..][6] == 'i';
      assert s[j..j + 7][6] == 'i';
    }
  }

  lemma CloserOccurs(s: string, j: nat)
    requires j <= |s|
    ensures OccursAt(s, j, CLOSE_THINK) <==> CloserLen(s[j..]) == 8
    ensures OccursAt(s, j, CLOSE_THINKING) <==> CloserLen(s[j..]) == 11
  {
    if j + 8 <= |s| { assert s[j..][..8] == s[j..j + 8]; }
    if j + 11 <= |s| { assert s[j..][..11] == s[j..j + 11]; }
    if OccursAt(s, j, CLOSE_THINKING) {
      assert s[j..j + 11][7] == s[j..][7] == 'i';
      assert s[j..j + 8][7] == 'i';
    }
  }

  /** findClosingTag: where the first closing tag of either kind starts, and its length. */
  function FindClosingTag(s: string): (r: (int, nat))
    ensures r.0 >= -1
    ensures r.0 < 0 ==> NoCloserBefore(s, |s|)
    ensures r.0 >= 0 ==> r.0 < |s| && r.1 > 0 && CloserLen(s[r.0..]) == r.1 && NoCloserBefore(s, r.0)
  {
    var thinkEnd := Index(s, CLOSE_THINK);
    var thinkingEnd := Index(s, CLOSE_THINKING);
    assert forall j :: 0 <= j < |s| ==>
      (CloserLen(s[j..]) == 8 <==> OccursAt(s, j, CLOSE_THINK)) &&
      (CloserLen(s[j..]) == 11 <==> OccursAt(s, j, CLOSE_THINKING)) by {
      forall j | 0 <= j < |s| { CloserOccurs(s, j); }
    }
    if thinkEnd == -1 && thinkingEnd == -1 then (-1, 0)
    else if thinkEnd == -1 then (thinkingEnd, |CLOSE_THINKING|)
    else if thinkingEnd == -1 then (thinkEnd, |CLOSE_THINK|)
    else if thinkEnd < thinkingEnd then (thinkEnd, |CLOSE_THINK|)
    else (thinkingEnd, |CLOSE_THINKING|)
  }

  /** findOpeningTag: where the first opening tag of either kind starts, and its length. */
  function FindOpeningTag(s: string): (r: (int, nat))
    ensures r.0 >= -1
    ensures r.0 < 0 ==> NoOpenerBefore(s, |s|)
    ensures r.0 >= 0 ==> r.0 < |s| && r.1 > 0 && OpenerLen(s[r.0..]) == r.1 && NoOpenerBefore(s, r.0)
  {
    var thinkIdx := Index(s, OPEN_THINK);
    var thinkingIdx := Index(s, OPEN_THINKING);
    assert forall j :: 0 <= j < |s| ==>
      (OpenerLen(s[j..]) == 7 <==> OccursAt(s, j, OPEN_THINK)) &&
      (OpenerLen(s[j..]) == 10 <==> OccursAt(s, j, OPEN_THINKING)) by {
      forall j | 0 <= j < |s| { OpenerOccurs(s, j); }
    }
    if thinkIdx == -1 && thinkingIdx == -1 then (-1, 0)
    else if thinkIdx == -1 then (thinkingIdx, |OPEN_THINKING|)
    else if thinkingIdx == -1 then (thinkIdx, |OPEN_THINK|)
    else if thinkIdx < thinkingIdx then (thinkIdx, |OPEN_THINK|)
    else (thinkingIdx, |OPEN_THINKING|)
  }

  /** isStandaloneClosingTag: the end of a closing tag that no opening tag precedes, 0 if there is none. */
  function StandaloneClosingTag(s: string): (r: (bool, nat))
    ensures r.0 <==> FindClosingTag(s).0 >= 0 && NoOpenerBefore(s, FindClosingTag(s).0)
    ensures r.0 ==> r.1 == FindClosingTag(s).0 + FindClosingTag(s).1 <= |s|
  {
    var (idx, tagLen) := FindClosingTag(s);
    if idx == -1 then (false, 0)
    else
      var thinkStart := Index(s, OPEN_THINK);
      var thinkingStart := Index(s, OPEN_THINKING);
      assert forall j :: 0 <= j < |s| ==>
        (OpenerLen(s[j..]) == 7 <==> OccursAt(s, j, OPEN_THINK)) &&
        (OpenerLen(s[j..]) == 10 <==> OccursAt(s, j, OPEN_THINKING)) by {
        forall j | 0 <= j < |s| { OpenerOccurs(s, j); }
      }
      if (thinkStart != -1 && thinkStart < idx) || (thinkingStart != -1 && thinkingStart < idx) then
        assert thinkStart != -1 && thinkStart < idx ==> OpenerLen(s[thinkStart..]) != 0;
        assert thinkingStart != -1 && thinkingStart < idx ==> OpenerLen(s[thinkingStart..]) != 0;
        (false, 0)
      else (true, idx + tagLen)
  }

  /** `t` is a non-empty proper prefix of an opening tag. */
  predicate IsPartialOpener(t: string) {
    t != "" && (t < OPEN_THINK || t < OPEN_THINKING)
  }

  const PARTIAL_OPENERS := ["<", "<t", "<th", "<thi", "<thin", "<think", "<thinki", "<thinkin", "<thinking"]

  /** hasIncompleteOpenTag: does `s` end with one of the listed fragments? */
  predicate HasIncompleteOpenTag(s: string) {
    exists k :: 0 <= k < |PARTIAL_OPENERS| && HasSuffix(s, PARTIAL_OPENERS[k])
  }

  lemma PartialOpenersComplete(t: string)
    ensures IsPartialOpener(t) <==> exists k :: 0 <= k < |PARTIAL_OPENERS| && t == PARTIAL_OPENERS[k]
  {
    var n := |t|;
    if 0 < n < 10 {
      assert PARTIAL_OPENERS[n - 1] == OPEN_THINKING[..n];
      if n < 7 { assert OPEN_THINK[..n] == OPEN_THINKING[..n]; }
    }
  }

  /** The list of fragments is exactly the set of suffixes that a later chunk could complete to an opening tag. */
  lemma IncompleteOpenTagIff(s: string)
    ensures HasIncompleteOpenTag(s) <==> exists j :: 0 <= j < |s| && IsPartialOpener(s[j..])
  {
    if HasIncompleteOpenTag(s) {
      var k :| 0 <= k < |PARTIAL_OPENERS| && HasSuffix(s, PARTIAL_OPENERS[k]);
      var j := |s| - |PARTIAL_OPENERS[k]|;
      PartialOpenersComplete(s[j..]);
      assert IsPartialOpener(s[j..]);
    }
    if j :| 0 <= j < |s| && IsPartialOpener(s[j..]) {
      PartialOpenersComplete(s[j..]);
      var k :| 0 <= k < |PARTIAL_OPENERS| && s[j..] == PARTIAL_OPENERS[k];
      assert HasSuffix(s, PARTIAL_OPENERS[k]);
    }
  }

  /** Appending text keeps a complete opening tag, and completes a tag only from a partial one. */
  lemma OpenerExtend(a: string, b: string)
    requires a != ""
    ensures OpenerLen(a) > 0 ==> OpenerLen(a + b) == OpenerLen(a)
    ensures OpenerLen(a + b) <= |a| ==> OpenerLen(a + b) == OpenerLen(a)
    ensures OpenerLen(a) == 0 && OpenerLen(a + b) > 0 ==> IsPartialOpener(a)
  {
    if |a| >= 7 { assert (a + b)[..7] == a[..7]; }
    if |a| >= 10 { assert (a + b)[..10] == a[..10]; }
    var k := OpenerLen(a + b);
    if k > |a| {
      assert (a + b)[..k][..|a|] == a;
    }
  }

  lemma CloserExtend(a: string, b: string)
    ensures CloserLen(a) > 0 ==> CloserLen(a + b) == CloserLen(a)
    ensures CloserLen(a + b) <= |a| ==> CloserLen(a + b) == CloserLen(a)
  {
    if |a| >= 8 { assert (a + b)[..8] == a[..8]; }
    if |a| >= 11 { assert (a + b)[..11] == a[..11]; }
  }
}
