/** MatchModel, the wildcard match of model names (backend/router.go), against anchored glob matching. */
module ModelPatterns {
  import opened Strings

  /** strings.Split(p, "*") */
  function SplitStar(p: string): (parts: seq<string>)
    ensures parts != []
    ensures forall i :: 0 <= i < |parts| ==> '*' !in parts[i]
    decreases |p|
  {
    var i := Index(p, "*");
    FirstStar(p);
    if i < 0 then [p] else [p[..i]] + SplitStar(p[i + 1..])
  }

  lemma FirstStar(p: string)
    ensures var i := Index(p, "*");
      if i < 0 then '*' !in p else i < |p| && p[i] == '*' && '*' !in p[..i]
  {
    hide Index;
    var i := Index(p, "*");
    forall j | 0 <= j < |p| && p[j] == '*' ensures i >= 0 && i <= j {
      assert p[j..j + 1] == ['*'];
      assert OccursAt(p, j, "*");
    }
    if i >= 0 {
      assert p[i..i + 1][0] == '*';
    }
  }

  /** The loop of MatchModel: each non-empty piece is looked for, leftmost first, behind the one before. */
  function Greedy(parts: seq<string>, model: string): bool
    decreases |parts|
  {
    if parts == [] then true
    else if parts[0] == "" then Greedy(parts[1..], model)
    else
      var idx := Index(model, parts[0]);
      idx >= 0 && Greedy(parts[1..], model[idx + |parts[0]|..])
  }

  function Matches(pattern: string, model: string): bool {
    if pattern == "" || pattern == "*" then true
    else if pattern == model then true
    else if '*' !in pattern then false
    else
      var parts := SplitStar(pattern);
      if |parts| == 2 then HasPrefix(model, parts[0]) && HasSuffix(model, parts[1])
      else Greedy(parts, model)
  }

  method MatchModel(pattern: string, model: string) returns (ok: bool)
    ensures ok == Matches(pattern, model)
  {
    if pattern == "" || pattern == "*" {
      return true;
    }
    if pattern == model {
      return true;
    }
    if '*' !in pattern {
      return false;
    }
    var parts := SplitStar(pattern);
    if |parts| == 2 {
      return HasPrefix(model, parts[0]) && HasSuffix(model, parts[1]);
    }
    hide Index, SplitStar;
    var pos, i := 0, 0;
    assert parts[0..] == parts && model[0..] == model;
    while i < |parts|
      invariant 0 <= i <= |parts| && 0 <= pos <= |model|
      invariant Greedy(parts, model) == Greedy(parts[i..], model[pos..])
    {
      var part := parts[i];
      assert parts[i..][1..] == parts[i + 1..];
      i := i + 1;
      if part == "" {
        continue;
      }
      var idx := Index(model[pos..], part);
      if idx < 0 {
        return false;
      }
      assert model[pos..][idx + |part|..] == model[pos + idx + |part|..];
      pos := pos + idx + |part|;
    }
    return true;
  }

  // ---- Leftmost search is complete ----

  /** The pieces occur in `model` in order and without overlap. */
  ghost predicate InOrder(parts: seq<string>, model: string)
    decreases |parts|
  {
    parts == [] ||
    exists i :: 0 <= i && OccursAt(model, i, parts[0]) && InOrder(parts[1..], model[i + |parts[0]|..])
  }

  lemma {:induction false} InOrderEarlier(parts: seq<string>, model: string, i: nat, j: nat)
    requires i <= j <= |model| && InOrder(parts, model[j..])
    ensures InOrder(parts, model[i..])
  {
    if parts != [] {
      var k :| 0 <= k && OccursAt(model[j..], k, parts[0]) && InOrder(parts[1..], model[j..][k + |parts[0]|..]);
      var at := k + (j - i);
      assert model[j..][k..k + |parts[0]|] == model[i..][at..at + |parts[0]|];
      assert model[j..][k + |parts[0]|..] == model[i..][at + |parts[0]|..];
      assert OccursAt(model[i..], at, parts[0]);
    }
  }

  lemma {:induction false} GreedyComplete(parts: seq<string>, model: string)
    ensures Greedy(parts, model) <==> InOrder(parts, model)
    decreases |parts|
  {
    hide Index;
    if parts != [] {
      var n := |parts[0]|;
      if parts[0] == "" {
        GreedyComplete(parts[1..], model);
        assert OccursAt(model, 0, "") && model[0..] == model;
        if i :| 0 <= i && OccursAt(model, i, "") && InOrder(parts[1..], model[i + 0..]) {
          InOrderEarlier(parts[1..], model, 0, i);
        }
      } else {
        var idx := Index(model, parts[0]);
        if idx >= 0 {
          GreedyComplete(parts[1..], model[idx + n..]);
        }
        if i :| 0 <= i && OccursAt(model, i, parts[0]) && InOrder(parts[1..], model[i + n..]) {
          assert idx <= i;
          InOrderEarlier(parts[1..], model, idx + n, i + n);
        }
      }
    }
  }

  // ---- Against glob matching ----

  /** Anchored glob matching: a star stands for any text, anything else for itself. */
  ghost predicate Glob(p: string, m: string)
    decreases |p|
  {
    if p == "" then m == ""
    else if p[0] == '*' then exists k :: 0 <= k <= |m| && Glob(p[1..], m[k..])
    else m != "" && m[0] == p[0] && Glob(p[1..], m[1..])
  }

  lemma {:induction false} GlobLiteral(x: string, q: string, m: string)
    requires '*' !in x
    ensures Glob(x + q, m) <==> HasPrefix(m, x) && Glob(q, m[|x|..])
    decreases |x|
  {
    if x == "" {
      assert x + q == q && m[0..] == m;
    } else {
      assert (x + q)[1..] == x[1..] + q;
      assert x[0] in x;
      if m != "" {
        assert forall c :: c in x[1..] ==> c in x;
        GlobLiteral(x[1..], q, m[1..]);
        if |x| <= |m| {
          assert m[..|x|] == [m[0]] + m[1..][..|x| - 1];
          assert x == [x[0]] + x[1..];
          assert m[1..][|x| - 1..] == m[|x|..];
        }
      }
    }
  }

  lemma GlobAny(m: string)
    ensures Glob("*", m)
  {
    assert m[|m|..] == "";
    assert Glob("", m[|m|..]);
    assert "*"[1..] == "";
  }

  lemma GlobPieceAt(x: string, q: string, m: string, k: nat)
    requires '*' !in x && k <= |m|
    ensures Glob(x + q, m[k..]) <==> OccursAt(m, k, x) && Glob(q, m[k + |x|..])
  {
    GlobLiteral(x, q, m[k..]);
    if k + |x| <= |m| {
      assert m[k..][..|x|] == m[k..k + |x|];
      assert m[k..][|x|..] == m[k + |x|..];
    }
  }

  /** A star, a literal piece, then the rest. */
  lemma GlobPiece(x: string, q: string, m: string)
    requires '*' !in x
    ensures Glob("*" + x + q, m) <==> exists i :: 0 <= i && OccursAt(m, i, x) && Glob(q, m[i + |x|..])
  {
    assert ("*" + x + q)[1..] == x + q;
    if Glob("*" + x + q, m) {
      var k :| 0 <= k <= |m| && Glob(("*" + x + q)[1..], m[k..]);
      GlobPieceAt(x, q, m, k);
    }
    if i :| 0 <= i && OccursAt(m, i, x) && Glob(q, m[i + |x|..]) {
      GlobPieceAt(x, q, m, i);
      assert Glob(("*" + x + q)[1..], m[i..]);
    }
  }

  /** With a star put at both ends, a pattern matches exactly when its pieces occur in order. */
  lemma {:induction false} GlobInOrder(p: string, m: string)
    ensures Glob("*" + p + "*", m) <==> InOrder(SplitStar(p), m)
    decreases |p|, 1
  {
    hide Glob;
    var i := Index(p, "*");
    FirstStar(p);
    if i < 0 {
      GlobPiece(p, "*", m);
      assert [p][1..] == [];
      forall k | 0 <= k && OccursAt(m, k, p) ensures Glob("*", m[k + |p|..]) && InOrder([], m[k + |p|..]) {
        GlobAny(m[k + |p|..]);
      }
    } else {
      GlobFirstPiece(p, i, m);
    }
  }

  lemma {:induction false} GlobFirstPiece(p: string, i: nat, m: string)
    requires i < |p| && i == Index(p, "*") && p[i] == '*' && '*' !in p[..i]
    ensures Glob("*" + p + "*", m) <==> InOrder(SplitStar(p), m)
    decreases |p|, 0
  {
    hide Glob, SplitStar, Index;
    var x, rest := p[..i], p[i + 1..];
    SplitAt(p, i);
    assert p == x + "*" + rest;
    assert "*" + p + "*" == "*" + x + ("*" + rest + "*");
    GlobPiece(x, "*" + rest + "*", m);
    var parts := SplitStar(p);
    assert parts[0] == x && parts[1..] == SplitStar(rest);
    forall k | 0 <= k && OccursAt(m, k, x)
      ensures Glob("*" + rest + "*", m[k + |x|..]) <==> InOrder(parts[1..], m[k + |x|..])
    {
      GlobInOrder(rest, m[k + |x|..]);
    }
    if InOrder(parts, m) {
      var k :| 0 <= k && OccursAt(m, k, parts[0]) && InOrder(parts[1..], m[k + |parts[0]|..]);
      assert Glob("*" + rest + "*", m[k + |x|..]);
    }
    if k :| 0 <= k && OccursAt(m, k, x) && Glob("*" + rest + "*", m[k + |x|..]) {
      assert OccursAt(m, k, parts[0]) && InOrder(parts[1..], m[k + |parts[0]|..]);
    }
  }

  lemma SplitAt(p: string, i: nat)
    requires i < |p| && i == Index(p, "*")
    ensures SplitStar(p) == [p[..i]] + SplitStar(p[i + 1..])
  {
  }

  function Stars(p: string): nat {
    if p == "" then 0 else (if p[0] == '*' then 1 else 0) + Stars(p[1..])
  }

  lemma {:induction false} StarsOfParts(p: string)
    ensures |SplitStar(p)| == Stars(p) + 1
    decreases |p|
  {
    var i := Index(p, "*");
    FirstStar(p);
    if i < 0 {
      NoStars(p);
    } else {
      StarsOfParts(p[i + 1..]);
      NoStars(p[..i]);
      StarsAppend(p[..i], p[i..]);
      assert p == p[..i] + p[i..];
      assert p[i..][1..] == p[i + 1..];
    }
  }

  lemma {:induction false} StarsAppend(a: string, b: string)
    ensures Stars(a + b) == Stars(a) + Stars(b)
  {
    if a == "" {
      assert a + b == b;
    } else {
      assert (a + b)[1..] == a[1..] + b;
      StarsAppend(a[1..], b);
    }
  }

  lemma {:induction false} NoStars(p: string)
    ensures '*' !in p <==> Stars(p) == 0
  {
    if p != "" {
      NoStars(p[1..]);
      assert p == [p[0]] + p[1..];
    }
  }

  lemma {:induction false} GlobSelf(p: string)
    ensures Glob(p, p)
  {
    if p != "" {
      GlobSelf(p[1..]);
      if p[0] == '*' { assert Glob(p[1..], p[1..]); }
    }
  }

  /** A star may be put in front of, or behind, any pattern that matches. */
  lemma {:induction false} GlobLoose(p: string, m: string)
    ensures Glob(p, m) ==> Glob(p + "*", m)
    ensures Glob(p, m) ==> Glob("*" + p + "*", m)
    decreases |p|
  {
    if Glob(p, m) {
      if p == "" {
        assert p + "*" == "*";
        GlobAny(m);
      } else {
        assert (p + "*")[1..] == p[1..] + "*";
        if p[0] == '*' {
          var k :| 0 <= k <= |m| && Glob(p[1..], m[k..]);
          GlobLoose(p[1..], m[k..]);
          assert Glob((p + "*")[1..], m[k..]);
        } else {
          GlobLoose(p[1..], m[1..]);
        }
      }
      assert ("*" + p + "*")[1..] == p + "*" && m[0..] == m;
      assert Glob(("*" + p + "*")[1..], m[0..]);
    }
  }

  /** Main result for two or more stars: the match is glob matching with a star put at both ends. */
  lemma ManyStars(p: string, m: string)
    requires Stars(p) >= 2
    ensures Matches(p, m) <==> Glob("*" + p + "*", m)
    ensures Matches(p, m) <==> InOrder(SplitStar(p), m)
  {
    hide Glob, SplitStar, Greedy, InOrder;
    StarsOfParts(p);
    GlobInOrder(p, m);
    GreedyComplete(SplitStar(p), m);
    NoStars(p);
    if p == m {
      GlobSelf(p);
      GlobLoose(p, p);
    }
  }

  /** Main result for one star: exact but for models so short that prefix and suffix overlap. */
  lemma OneStar(p: string, m: string)
    requires Stars(p) == 1
    ensures var parts := SplitStar(p);
      |parts| == 2 &&
      (Glob(p, m) <==> Matches(p, m) && |m| >= |parts[0]| + |parts[1]|)
  {
    hide SplitStar, Greedy, InOrder, Index;
    StarsOfParts(p);
    NoStars(p);
    var i := Index(p, "*");
    FirstStar(p);
    SplitAt(p, i);
    var x, y := p[..i], p[i + 1..];
    StarsOfParts(y);
    NoStars(y);
    assert p == x + ("*" + y);
    GlobLiteral(x, "*" + y, m);
    if |x| <= |m| {
      GlobSuffix(y, m[|x|..]);
      SuffixBehind(|x|, y, m);
    }
    SplitPlain(y);
    Shapes(x, y, p, m);
  }

  lemma SplitPlain(y: string)
    requires '*' !in y
    ensures SplitStar(y) == [y]
  {
    FirstStar(y);
  }

  lemma GlobSuffix(y: string, m: string)
    requires '*' !in y
    ensures Glob("*" + y, m) <==> HasSuffix(m, y)
  {
    assert ("*" + y)[1..] == y;
    forall k | 0 <= k <= |m| ensures Glob(y, m[k..]) <==> m[k..] == y {
      GlobLiteral(y, "", m[k..]);
      assert y + "" == y;
    }
    if HasSuffix(m, y) {
      assert Glob(("*" + y)[1..], m[|m| - |y|..]);
    }
  }

  lemma Shapes(x: string, y: string, p: string, m: string)
    requires '*' !in x && '*' !in y && p == x + ("*" + y) && SplitStar(p) == [x] + [y]
    ensures Matches(p, m) && |m| >= |x| + |y| <==> |m| >= |x| + |y| && HasPrefix(m, x) && HasSuffix(m, y)
  {
    hide SplitStar, Greedy;
    assert p[|x|] == '*' && p[..|x|] == x && p[|p| - |y|..] == y;
  }

  lemma SuffixBehind(n: nat, y: string, m: string)
    requires n <= |m|
    ensures HasSuffix(m[n..], y) <==> |m| >= n + |y| && HasSuffix(m, y)
  {
    if |m| >= n + |y| { assert m[n..][|m| - n - |y|..] == m[|m| - |y|..]; }
  }

  /** Without a star the match is equality, but for the empty pattern, which matches everything. */
  lemma NoStar(p: string, m: string)
    requires Stars(p) == 0
    ensures Matches(p, m) <==> p == "" || p == m
    ensures Glob(p, m) <==> p == m
  {
    hide SplitStar, Greedy;
    NoStars(p);
    GlobLiteral(p, "", m);
    assert p + "" == p;
  }

  /** Main result: every anchored glob match is accepted, for every pattern. */
  lemma GlobAccepted(p: string, m: string)
    requires Glob(p, m)
    ensures Matches(p, m)
  {
    hide Glob, Matches, SplitStar;
    if p == "" || p == "*" {
      Trivial(p, m);
    } else if Stars(p) == 0 {
      NoStar(p, m);
    } else if Stars(p) == 1 {
      OneStar(p, m);
    } else {
      GlobLoose(p, m);
      ManyStars(p, m);
    }
  }

  lemma Trivial(p: string, m: string)
    requires p == "" || p == "*"
    ensures Matches(p, m)
  {
  }

  /** The overlap that glob matching rejects. */
  lemma OverlapAccepted()
    ensures Matches("ab*ba", "aba") && !Glob("ab*ba", "aba")
  {
    assert Stars("ab*ba") == 1;
    OneStar("ab*ba", "aba");
  }
}
