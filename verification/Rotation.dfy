/** Rotations, weighted expansion and first occurrences, as the router uses them. */
module Rotations {
  import opened ModelPatterns

  datatype Backend = Backend(name: string, url: string, models: seq<string>, weight: int, priority: int, enabled: bool)

  /** A reference to a Runtime: two of them are the same only if their addresses are. */
  datatype Runtime = Runtime(address: nat, backend: Backend) {
    predicate Serves(model: string) {
      exists i :: 0 <= i < |backend.models| && Matches(backend.models[i], model)
    }
  }

  const WORD := 0x1_0000_0000_0000_0000
  const SIGN := 0x8000_0000_0000_0000

  /** int(uint64) in Go */
  function ToInt(v: nat): int
    requires v < WORD
  {
    if v < SIGN then v else v - WORD
  }

  /** Go's %, which truncates towards zero. */
  function GoMod(a: int, n: nat): int
    requires n > 0
  {
    if a >= 0 then a % n else -((-a) % n)
  }

  function Rotated(s: seq<Runtime>, k: nat): seq<Runtime>
    requires k <= |s|
  {
    s[k..] + s[..k]
  }

  predicate Distinct(s: seq<Runtime>) {
    forall i, j :: 0 <= i < j < |s| ==> s[i] != s[j]
  }

  /** Weights below one count as one. */
  function Weight(x: Runtime): (w: nat)
    ensures w > 0
  {
    if x.backend.weight <= 0 then 1 else x.backend.weight
  }

  function Copies(x: Runtime, n: nat): seq<Runtime> {
    seq(n, _ => x)
  }

  function Expand(s: seq<Runtime>): seq<Runtime> {
    if s == [] then [] else Copies(s[0], Weight(s[0])) + Expand(s[1..])
  }

  /** The first occurrence of every element not in `seen`. */
  function Firsts(s: seq<Runtime>, seen: set<Runtime>): seq<Runtime>
    decreases |s|
  {
    if s == [] then []
    else if s[0] in seen then Firsts(s[1..], seen)
    else [s[0]] + Firsts(s[1..], seen + {s[0]})
  }

  /** The block of the expansion that position `k` falls into. */
  function BlockOf(s: seq<Runtime>, k: nat): (j: nat)
    requires k < |Expand(s)|
    ensures j < |s| && Expand(s)[k] == s[j]
    decreases |s|
  {
    if k < Weight(s[0]) then 0 else 1 + BlockOf(s[1..], k - Weight(s[0]))
  }

  lemma {:induction false} ExpandAppend(a: seq<Runtime>, b: seq<Runtime>)
    ensures Expand(a + b) == Expand(a) + Expand(b)
  {
    if a == [] {
      assert a + b == b;
    } else {
      assert (a + b)[1..] == a[1..] + b;
      ExpandAppend(a[1..], b);
      assert Copies(a[0], Weight(a[0])) + (Expand(a[1..]) + Expand(b)) == Expand(a) + Expand(b);
    }
  }

  /** Where a position of the expansion cuts it: part of a block before, the rest of the block and the later blocks
      behind. */
  lemma {:induction false} CutExpansion(s: seq<Runtime>, k: nat) returns (n: nat)
    requires k < |Expand(s)|
    ensures var j := BlockOf(s, k);
      n < Weight(s[j]) &&
      Expand(s)[..k] == Expand(s[..j]) + Copies(s[j], n) &&
      Expand(s)[k..] == Copies(s[j], Weight(s[j]) - n) + Expand(s[j + 1..])
    decreases |s|
  {
    var w := Weight(s[0]);
    var block := Copies(s[0], w);
    if k < w {
      n := k;
      assert Expand(s)[..k] == Expand(s[..0]) + Copies(s[0], k);
      assert Expand(s)[k..] == Copies(s[0], w - k) + Expand(s[1..]);
    } else {
      n := CutExpansion(s[1..], k - w);
      var j := BlockOf(s[1..], k - w);
      assert s[..j + 1][1..] == s[1..][..j] && s[1..][j + 1..] == s[j + 2..];
      assert Expand(s)[..k] == block + Expand(s[1..])[..k - w];
      assert Expand(s)[k..] == Expand(s[1..])[k - w..];
      assert block + (Expand(s[1..][..j]) + Copies(s[1..][j], n)) == Expand(s[..j + 1]) + Copies(s[j + 1], n);
    }
  }

  /** Copies of one element give that element once, or nothing if it was seen. */
  lemma {:induction false} FirstsCopies(x: Runtime, n: nat, rest: seq<Runtime>, seen: set<Runtime>)
    ensures x in seen ==> Firsts(Copies(x, n) + rest, seen) == Firsts(rest, seen)
    ensures x !in seen && n > 0 ==> Firsts(Copies(x, n) + rest, seen) == [x] + Firsts(rest, seen + {x})
    decreases n
  {
    if n == 0 {
      assert Copies(x, n) + rest == rest;
    } else {
      assert (Copies(x, n) + rest)[1..] == Copies(x, n - 1) + rest;
      FirstsCopies(x, n - 1, rest, seen);
      FirstsCopies(x, n - 1, rest, seen + {x});
    }
  }

  function Elements(s: seq<Runtime>): set<Runtime> {
    set x | x in s
  }

  lemma {:induction false} FirstsExpansion(s: seq<Runtime>, rest: seq<Runtime>, seen: set<Runtime>)
    requires Distinct(s) && Elements(s) !! seen
    ensures Firsts(Expand(s) + rest, seen) == s + Firsts(rest, seen + Elements(s))
    decreases |s|
  {
    if s == [] {
      assert Expand(s) + rest == rest && seen + Elements(s) == seen;
    } else {
      var x, w := s[0], Weight(s[0]);
      assert Expand(s) + rest == Copies(x, w) + (Expand(s[1..]) + rest);
      FirstsCopies(x, w, Expand(s[1..]) + rest, seen);
      assert Elements(s) == {x} + Elements(s[1..]);
      assert x !in Elements(s[1..]);
      FirstsExpansion(s[1..], rest, seen + {x});
      assert seen + {x} + Elements(s[1..]) == seen + Elements(s);
      assert [x] + (s[1..] + Firsts(rest, seen + Elements(s))) == s + Firsts(rest, seen + Elements(s));
    }
  }

  lemma {:induction false} FirstsSeen(s: seq<Runtime>, seen: set<Runtime>)
    requires Elements(s) <= seen
    ensures Firsts(s, seen) == []
    decreases |s|
  {
    if s != [] {
      assert s[0] in Elements(s);
      assert Elements(s[1..]) <= Elements(s);
      FirstsSeen(s[1..], seen);
    }
  }

  lemma DistinctParts(s: seq<Runtime>, j: nat)
    requires Distinct(s) && j < |s|
    ensures Distinct(s[j + 1..]) && Distinct(s[..j])
    ensures Elements(s[j + 1..]) !! {s[j]} && Elements(s[..j]) !! {s[j]} + Elements(s[j + 1..])
  {
  }

  lemma FirstsOfCut(s: seq<Runtime>, j: nat, n: nat)
    requires Distinct(s) && j < |s| && n < Weight(s[j])
    ensures Firsts(Copies(s[j], Weight(s[j]) - n) + (Expand(s[j + 1..]) + (Expand(s[..j]) + Copies(s[j], n))), {}) ==
            [s[j]] + (s[j + 1..] + (s[..j] + []))
  {
    hide Distinct, Elements, Firsts, Expand;
    var x, w := s[j], Weight(s[j]);
    var tail := Expand(s[..j]) + Copies(x, n);
    DistinctParts(s, j);
    FirstsCopies(x, w - n, Expand(s[j + 1..]) + tail, {});
    assert {} + {x} == {x};
    FirstsExpansion(s[j + 1..], tail, {x});
    FirstsExpansion(s[..j], Copies(x, n), {x} + Elements(s[j + 1..]));
    FirstsSeen(Copies(x, n), {x} + Elements(s[j + 1..]) + Elements(s[..j])) by { ElementsOfCopies(x, n); }
  }

  lemma ElementsOfCopies(x: Runtime, n: nat)
    ensures Elements(Copies(x, n)) <= {x}
  {
  }

  /** Main result: whatever the offset, dropping repeated entries of the rotated expansion leaves a cyclic rotation
      of the list itself, led by the backend whose block the offset falls into. */
  lemma WeightedOrder(s: seq<Runtime>, k: nat)
    requires Distinct(s) && k < |Expand(s)|
    ensures Firsts(Rotated(Expand(s), k), {}) == Rotated(s, BlockOf(s, k))
  {
    hide Distinct, Firsts, Expand, Copies, BlockOf;
    var j := BlockOf(s, k);
    var n := CutExpansion(s, k);
    FirstsOfCut(s, j, n);
    var head := Copies(s[j], Weight(s[j]) - n);
    var (back, tail) := (Expand(s[j + 1..]), Expand(s[..j]) + Copies(s[j], n));
    assert Rotated(Expand(s), k) == head + (back + tail);
    assert [s[j]] + (s[j + 1..] + (s[..j] + [])) == s[j..] + s[..j];
  }
}
