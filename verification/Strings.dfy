/** The few operations of Go's `strings` package that the proxy relies on. */
module Strings {

  /** `t` stands in `s` at position `i`. */
  predicate OccursAt(s: string, i: int, t: string) {
    0 <= i && i + |t| <= |s| && s[i..i + |t|] == t
  }

  predicate HasPrefix(s: string, t: string) {
    |t| <= |s| && s[..|t|] == t
  }

  predicate HasSuffix(s: string, t: string) {
    |t| <= |s| && s[|s| - |t|..] == t
  }

  /** strings.Index: the first occurrence of `t`, or -1. */
  function Index(s: string, t: string): (r: int)
    ensures -1 <= r
    ensures r >= 0 ==> OccursAt(s, r, t)
    ensures forall j :: 0 <= j < r ==> !OccursAt(s, j, t)
    ensures r < 0 ==> forall j :: !OccursAt(s, j, t)
  {
    if |s| < |t| then -1
    else if s[..|t|] == t then 0
    else
      var rest := Index(s[1..], t);
      assert forall j :: 1 <= j && OccursAt(s, j, t) ==> OccursAt(s[1..], j - 1, t) by {
        forall j | 1 <= j && OccursAt(s, j, t) ensures OccursAt(s[1..], j - 1, t) {
          assert s[1..][j - 1..j - 1 + |t|] == s[j..j + |t|];
        }
      }
      assert forall j :: 0 <= j && OccursAt(s[1..], j, t) ==> OccursAt(s, j + 1, t) by {
        forall j | 0 <= j && OccursAt(s[1..], j, t) ensures OccursAt(s, j + 1, t) {
          assert s[1..][j..j + |t|] == s[j + 1..j + 1 + |t|];
        }
      }
      if rest < 0 then -1 else rest + 1
  }

  function Concat(parts: seq<string>): (r: string) {
    if parts == [] then "" else parts[0] + Concat(parts[1..])
  }

  lemma {:induction false} ConcatAppend(a: seq<string>, b: seq<string>)
    ensures Concat(a + b) == Concat(a) + Concat(b)
  {
    if a == [] {
      assert a + b == b;
    } else {
      assert (a + b)[1..] == a[1..] + b;
      ConcatAppend(a[1..], b);
    }
  }

  lemma ConcatSnoc(a: seq<string>, t: string)
    ensures Concat(a + [t]) == Concat(a) + t
  {
    ConcatAppend(a, [t]);
    assert Concat([t]) == t;
  }
}
