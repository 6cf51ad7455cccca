/** The buffered tool calls, keyed by index, agree with the streamed ones, which ignore the index, exactly when the
    fragments of each call are contiguous and only its first one opens it. */
module BufferedAgreement {
  import opened Chunks
  import opened Options
  import opened SseBuffer
  import opened ToolAgreement
  import A = AnthropicStream
  import AE = AnthropicEnding
  import AO = AnthropicOrder
  import AT = AnthropicTrace
  import AY = AnthropicTyping
  import R = ResponsesStream
  import RS = ResponsesSnapshot

  // ---- The discipline upstream must keep ----

  predicate Seen(fragments: seq<ToolFragment>, index: int) {
    exists i :: 0 <= i < |fragments| && fragments[i].index == index
  }

  /** The name that the first fragment with this index carries. */
  function OpenedAs(fragments: seq<ToolFragment>, index: int): string {
    if fragments == [] then ""
    else if fragments[0].index == index then fragments[0].name
    else OpenedAs(fragments[1..], index)
  }

  /** The index of the call opened last. */
  function Current(fragments: seq<ToolFragment>): int
    decreases |fragments|
  {
    if fragments == [] then 0
    else
      var last := fragments[|fragments| - 1];
      if last.id != "" then last.index else Current(fragments[..|fragments| - 1])
  }

  /** A new index comes with an id; a known one without, and it neither renames its call nor extends an earlier one. */
  predicate Follows(before: seq<ToolFragment>, f: ToolFragment) {
    if !Seen(before, f.index) then f.id != ""
    else
      f.id == "" && (f.name == "" || f.name == OpenedAs(before, f.index)) &&
      (f.arguments == "" || f.index == Current(before))
  }

  predicate Disciplined(fragments: seq<ToolFragment>) {
    forall k :: 0 <= k < |fragments| ==> Follows(fragments[..k], fragments[k])
  }

  // ---- What the buffer holds meanwhile ----

  predicate Distinct(order: seq<int>) {
    forall i, j :: 0 <= i < j < |order| ==> order[i] != order[j]
  }

  ghost predicate Covers(b: Buffer) {
    Distinct(b.order) && forall i :: i in b.order <==> i in b.calls
  }

  lemma {:induction false} ListedAt(order: seq<int>, calls: map<int, ToolCall>)
    requires forall i :: 0 <= i < |order| ==> order[i] in calls
    ensures |Listed(order, calls)| == |order|
    ensures forall i :: 0 <= i < |order| ==> Listed(order, calls)[i] == calls[order[i]]
  {
    if order != [] { ListedAt(order[..|order| - 1], calls); }
  }

  lemma ListedNew(b: Buffer, f: ToolFragment)
    requires Covers(b) && f.index !in b.calls
    ensures var b1 := AddFragment(b, f);
      Covers(b1) && b1.order == b.order + [f.index] &&
      Listed(b1.order, b1.calls) == Listed(b.order, b.calls) + [ToolCall(f.id, f.name, f.arguments)]
  {
    hide Listed;
    var b1 := AddFragment(b, f);
    assert "" + f.arguments == f.arguments;
    assert b1.calls[f.index] == ToolCall(f.id, f.name, f.arguments);
    assert forall i :: 0 <= i < |b.order| ==> b.order[i] in b.order;
    ListedAt(b.order, b.calls);
    ListedAt(b1.order, b1.calls);
  }

  lemma ListedOld(b: Buffer, f: ToolFragment, k: nat)
    requires Covers(b) && k < |b.order| && b.order[k] == f.index
    ensures var (b1, calls) := (AddFragment(b, f), Listed(b.order, b.calls));
      |calls| == |b.order| && Covers(b1) && b1.order == b.order && Listed(b1.order, b1.calls) ==
      calls[k := ToolCall(if f.id != "" then f.id else calls[k].id, if f.name != "" then f.name else calls[k].name,
                          calls[k].arguments + f.arguments)]
  {
    hide Listed;
    var b1 := AddFragment(b, f);
    ListedAt(b.order, b.calls);
    ListedAt(b1.order, b1.calls);
  }

  /** After disciplined fragments: the order list holds the indices seen, the current call is the last of them, and
      every call still has the name it was opened with. */
  ghost predicate Tracks(b: Buffer, fragments: seq<ToolFragment>) {
    Covers(b) && (forall i :: i in b.order <==> Seen(fragments, i)) &&
    (b.order != [] ==> b.order[|b.order| - 1] == Current(fragments)) &&
    forall i :: i in b.calls ==> b.calls[i].name == OpenedAs(fragments, i)
  }

  /** The two accounts of the calls are the same. */
  predicate Same(b: Buffer, fragments: seq<ToolFragment>) {
    Listed(b.order, b.calls) == Latest([], fragments)
  }

  lemma SeenSnoc(before: seq<ToolFragment>, f: ToolFragment, i: int)
    ensures Seen(before + [f], i) <==> Seen(before, i) || i == f.index
  {
    var all := before + [f];
    assert all[|before|] == f;
    if Seen(before, i) {
      var j :| 0 <= j < |before| && before[j].index == i;
      assert all[j].index == i;
    }
  }

  lemma {:induction false} OpenedSnoc(before: seq<ToolFragment>, f: ToolFragment, i: int)
    ensures OpenedAs(before + [f], i) ==
      if Seen(before, i) then OpenedAs(before, i) else if f.index == i then f.name else ""
  {
    if before == [] {
      assert before + [f] == [f] && OpenedAs([], i) == "";
    } else {
      assert (before + [f])[1..] == before[1..] + [f];
      OpenedSnoc(before[1..], f, i);
      if before[0].index != i {
        assert Seen(before, i) ==> Seen(before[1..], i) by {
          if Seen(before, i) {
            var j :| 0 <= j < |before| && before[j].index == i;
            assert before[1..][j - 1].index == i;
          }
        }
        assert Seen(before[1..], i) ==> Seen(before, i) by {
          if Seen(before[1..], i) {
            var j :| 0 <= j < |before| - 1 && before[1..][j].index == i;
            assert before[j + 1].index == i;
          }
        }
      }
    }
  }

  lemma CurrentSnoc(before: seq<ToolFragment>, f: ToolFragment)
    ensures Current(before + [f]) == if f.id != "" then f.index else Current(before)
    ensures Latest([], before + [f]) == AddLatest(Latest([], before), f)
  {
    assert (before + [f])[..|before|] == before;
  }

  /** One fragment keeps the accounts together exactly when it follows the discipline. */
  lemma SameIff(b: Buffer, before: seq<ToolFragment>, f: ToolFragment)
    requires Tracks(b, before) && Same(b, before)
    ensures Same(AddFragment(b, f), before + [f]) <==> Follows(before, f)
  {
    hide Listed, Latest, AddFragment, OpenedAs, Current, Seen;
    CurrentSnoc(before, f);
    if f.index in b.calls {
      var k :| 0 <= k < |b.order| && b.order[k] == f.index;
      ListedAt(b.order, b.calls);
      ListedOld(b, f, k);
      OldSame(Latest([], before), f, k);
    } else {
      ListedNew(b, f);
      NewSame(Latest([], before), f);
    }
  }

  lemma OldSame(calls: seq<ToolCall>, f: ToolFragment, k: nat)
    requires k < |calls|
    ensures AddLatest(calls, f) ==
        calls[k := ToolCall(if f.id != "" then f.id else calls[k].id, if f.name != "" then f.name else calls[k].name,
                            calls[k].arguments + f.arguments)]
      <==> f.id == "" && (f.name == "" || f.name == calls[k].name) && (f.arguments == "" || k == |calls| - 1)
  {
    var n := |calls| - 1;
    var updated := ToolCall(if f.id != "" then f.id else calls[k].id, if f.name != "" then f.name else calls[k].name,
                            calls[k].arguments + f.arguments);
    var buffered := calls[k := updated];
    assert calls[k].arguments + "" == calls[k].arguments;
    if f.id != "" {
      assert |AddLatest(calls, f)| == |calls| + 1;
    } else if f.arguments == "" {
      assert AddLatest(calls, f) == calls && calls[k].id == updated.id;
      assert buffered[k] == updated;
      assert updated.name == calls[k].name ==> updated == calls[k] && buffered == calls;
    } else {
      var streamed := calls[n := calls[n].(arguments := calls[n].arguments + f.arguments)];
      assert AddLatest(calls, f) == streamed;
      assert |buffered[k].arguments| > |calls[k].arguments|;
      assert k != n ==> streamed[k] == calls[k];
      if k == n { assert streamed[n].name == calls[n].name && buffered[n].name == updated.name; }
    }
  }

  lemma NewSame(calls: seq<ToolCall>, f: ToolFragment)
    ensures AddLatest(calls, f) == calls + [ToolCall(f.id, f.name, f.arguments)] <==> f.id != ""
  {
    var one := calls + [ToolCall(f.id, f.name, "")];
    if f.id != "" {
      var n := |calls|;
      assert "" + f.arguments == f.arguments;
      assert one[n := one[n].(arguments := f.arguments)] == calls + [ToolCall(f.id, f.name, f.arguments)];
    } else {
      assert |AddLatest(calls, f)| == |calls|;
    }
  }

  lemma TracksOn(b: Buffer, before: seq<ToolFragment>, f: ToolFragment)
    requires Tracks(b, before) && Follows(before, f)
    ensures Tracks(AddFragment(b, f), before + [f])
  {
    hide Listed, Latest, OpenedAs, Current, Seen, AddFragment;
    var b1 := AddFragment(b, f);
    CurrentSnoc(before, f);
    forall i ensures Seen(before + [f], i) <==> Seen(before, i) || i == f.index {
      SeenSnoc(before, f, i);
    }
    if f.index in b.calls {
      var k :| 0 <= k < |b.order| && b.order[k] == f.index;
      ListedOld(b, f, k);
    } else {
      ListedNew(b, f);
    }
    forall i | i in b1.calls ensures b1.calls[i].name == OpenedAs(before + [f], i) {
      OpenedSnoc(before, f, i);
      NameAfter(b, f, i);
    }
  }

  lemma NameAfter(b: Buffer, f: ToolFragment, i: int)
    ensures var b1 := AddFragment(b, f);
      (i in b1.calls <==> i in b.calls || i == f.index) &&
      (i in b1.calls ==>
         b1.calls[i].name ==
         if i != f.index then b.calls[i].name else if f.name == "" && i in b.calls then b.calls[i].name else f.name)
  {
  }

  lemma FragmentsSnoc(b: Buffer, before: seq<ToolFragment>, f: ToolFragment)
    ensures AddFragments(b, before + [f]) == AddFragment(AddFragments(b, before), f)
  {
    assert (before + [f])[..|before|] == before;
  }

  lemma {:induction false} DisciplinedSame(fragments: seq<ToolFragment>)
    requires Disciplined(fragments)
    ensures Tracks(AddFragments(EMPTY, fragments), fragments) && Same(AddFragments(EMPTY, fragments), fragments)
    decreases |fragments|
  {
    hide Tracks, Same, AddFragment, Follows;
    if fragments == [] {
      NothingYet();
    } else {
      var n := |fragments| - 1;
      var (before, f) := (fragments[..n], fragments[n]);
      forall k | 0 <= k < n ensures Follows(before[..k], before[k]) {
        assert before[..k] == fragments[..k];
      }
      assert fragments == before + [f];
      DisciplinedSame(before);
      FragmentsSnoc(EMPTY, before, f);
      TracksOn(AddFragments(EMPTY, before), before, f);
      SameIff(AddFragments(EMPTY, before), before, f);
    }
  }

  lemma NothingYet()
    ensures Tracks(EMPTY, []) && Same(EMPTY, [])
  {
  }

  /** Both accounts agree after every fragment. */
  predicate SameThroughout(fragments: seq<ToolFragment>) {
    forall k :: 0 <= k <= |fragments| ==> Same(AddFragments(EMPTY, fragments[..k]), fragments[..k])
  }

  /** Main result on fragments: agreement all along is exactly the discipline. */
  lemma SameThroughoutIff(fragments: seq<ToolFragment>)
    ensures SameThroughout(fragments) <==> Disciplined(fragments)
  {
    hide Tracks, Same, AddFragment, Follows;
    if Disciplined(fragments) {
      forall k | 0 <= k <= |fragments| ensures Same(AddFragments(EMPTY, fragments[..k]), fragments[..k]) {
        DisciplinedPrefix(fragments, k);
        DisciplinedSame(fragments[..k]);
      }
    }
    if SameThroughout(fragments) { SameDisciplined(fragments, |fragments|); }
  }

  lemma DisciplinedPrefix(fragments: seq<ToolFragment>, n: nat)
    requires Disciplined(fragments) && n <= |fragments|
    ensures Disciplined(fragments[..n])
  {
    hide Follows;
    forall k | 0 <= k < n ensures Follows(fragments[..n][..k], fragments[..n][k]) {
      assert fragments[..n][..k] == fragments[..k];
    }
  }

  lemma {:induction false} SameDisciplined(fragments: seq<ToolFragment>, n: nat)
    requires SameThroughout(fragments) && n <= |fragments|
    ensures forall k :: 0 <= k < n ==> Follows(fragments[..k], fragments[k])
  {
    hide Tracks, Same, AddFragment, Follows;
    if n > 0 {
      SameDisciplined(fragments, n - 1);
      var before := fragments[..n - 1];
      forall k | 0 <= k < n - 1 ensures Follows(before[..k], before[k]) {
        assert before[..k] == fragments[..k];
      }
      DisciplinedSame(before);
      SameIff(AddFragments(EMPTY, before), before, fragments[n - 1]);
      assert fragments[..n] == before + [fragments[n - 1]];
      FragmentsSnoc(EMPTY, before, fragments[n - 1]);
      assert Same(AddFragments(EMPTY, fragments[..n]), fragments[..n]);
    }
  }

  // ---- From fragments to chunks ----

  function Fragments(c: StreamChunk): seq<ToolFragment> {
    if c.choices == [] then [] else c.choices[0].toolCalls
  }

  /** The tool part of two buffers is the same. */
  predicate SameCalls(a: Buffer, b: Buffer) {
    a.order == b.order && a.calls == b.calls
  }

  lemma {:induction false} FragmentsKeepCalls(a: Buffer, b: Buffer, fragments: seq<ToolFragment>)
    requires SameCalls(a, b)
    ensures SameCalls(AddFragments(a, fragments), AddFragments(b, fragments))
    decreases |fragments|
  {
    if fragments != [] { FragmentsKeepCalls(a, b, fragments[..|fragments| - 1]); }
  }

  lemma ChunkAdds(a: Buffer, b: Buffer, c: StreamChunk)
    requires SameCalls(a, b)
    ensures SameCalls(AddChunk(a, c), AddFragments(b, Fragments(c)))
  {
    hide AddFragment;
    if c.choices != [] {
      var a1 := if c.usage.Some? then a.(usage := c.usage) else a;
      var a2 := a1.(content := a1.content + c.choices[0].content, reasoning := a1.reasoning + c.choices[0].reasoning);
      FragmentsKeepCalls(a2, b, c.choices[0].toolCalls);
    }
  }

  lemma {:induction false} FragmentsAppend(b: Buffer, x: seq<ToolFragment>, y: seq<ToolFragment>)
    ensures AddFragments(b, x + y) == AddFragments(AddFragments(b, x), y)
    decreases |y|
  {
    hide AddFragment;
    if y == [] {
      assert x + y == x;
    } else {
      var n := |y| - 1;
      assert (x + y)[..|x| + n] == x + y[..n];
      FragmentsAppend(b, x, y[..n]);
    }
  }

  /** Every fragment the translators see, the buffer sees, and the other way round. */
  predicate NoHiddenTools(chunks: seq<StreamChunk>) {
    forall i :: 0 <= i < |chunks| && Keepalive(chunks[i]) ==> Fragments(chunks[i]) == []
  }

  lemma {:induction false} AllSnoc(chunks: seq<StreamChunk>, c: StreamChunk)
    ensures AllFragments(chunks + [c]) == AllFragments(chunks) + if Bearing(c) then c.choices[0].toolCalls else []
  {
    hide Bearing;
    if chunks == [] {
      assert chunks + [c] == [c] && [c][1..] == [];
    } else {
      assert (chunks + [c])[1..] == chunks[1..] + [c] && (chunks + [c])[0] == chunks[0];
      AllSnoc(chunks[1..], c);
    }
  }

  lemma {:induction false} ChunksAdd(chunks: seq<StreamChunk>)
    requires NoHiddenTools(chunks)
    ensures SameCalls(AddChunks(EMPTY, chunks), AddFragments(EMPTY, AllFragments(chunks)))
    decreases |chunks|
  {
    hide AddFragment, AddChunk, Keepalive;
    if chunks != [] {
      var n := |chunks| - 1;
      var (front, c) := (chunks[..n], chunks[n]);
      ChunksAdd(front);
      assert chunks == front + [c];
      AllSnoc(front, c);
      ChunkAdds(AddChunks(EMPTY, front), AddFragments(EMPTY, AllFragments(front)), c);
      FragmentsAppend(EMPTY, AllFragments(front), Fragments(c));
      assert Fragments(c) == if Bearing(c) then c.choices[0].toolCalls else [];
    }
  }

  // ---- Fragments behind the finish ----

  predicate NoIds(fragments: seq<ToolFragment>) {
    forall i :: 0 <= i < |fragments| ==> fragments[i].id == ""
  }

  function ArgumentsOf(fragments: seq<ToolFragment>): string {
    if fragments == [] then "" else ArgumentsOf(fragments[..|fragments| - 1]) + fragments[|fragments| - 1].arguments
  }

  lemma {:induction false} NoArguments(fragments: seq<ToolFragment>)
    requires NoIds(fragments)
    ensures NoTools(fragments) <==> ArgumentsOf(fragments) == ""
    decreases |fragments|
  {
    if fragments != [] {
      var n := |fragments| - 1;
      hide NoTools;
      NoArguments(fragments[..n]);
      NoToolsAppend(fragments[..n], [fragments[n]]);
      OneTool(fragments[n]);
      assert fragments == fragments[..n] + [fragments[n]];
    }
  }

  lemma OneTool(f: ToolFragment)
    ensures NoTools([f]) <==> f.id == "" && f.arguments == ""
  {
    assert [f][0] == f;
  }

  /** Without an id, fragments only add to the last call. */
  lemma {:induction false} LateArguments(calls: seq<ToolCall>, late: seq<ToolFragment>)
    requires NoIds(late)
    ensures Latest(calls, late) == Append(calls, ArgumentsOf(late))
    decreases |late|
  {
    hide Append;
    if late == [] {
      AppendTwice(calls, "", "");
    } else {
      var n := |late| - 1;
      LateArguments(calls, late[..n]);
      AppendTwice(calls, ArgumentsOf(late[..n]), late[n].arguments);
      AppendTwice(Append(calls, ArgumentsOf(late[..n])), "", "");
      assert late[n].id == "" && Latest(calls, late) == AddLatest(Latest(calls, late[..n]), late[n]);
    }
  }

  lemma AppendTwice(calls: seq<ToolCall>, a: string, b: string)
    ensures Append(Append(calls, a), b) == Append(calls, a + b) && Append(calls, "") == calls
  {
    if calls != [] {
      var last := calls[|calls| - 1];
      assert last.arguments + "" == last.arguments && last.arguments + a + b == last.arguments + (a + b);
    }
  }

  /** With one, there are more calls. */
  lemma {:induction false} LateCount(calls: seq<ToolCall>, late: seq<ToolFragment>)
    ensures |Latest(calls, late)| >= |calls| && (|Latest(calls, late)| == |calls| <==> NoIds(late))
    decreases |late|
  {
    hide AddLatest;
    if late != [] {
      var n := |late| - 1;
      LateCount(calls, late[..n]);
      AddCount(Latest(calls, late[..n]), late[n]);
      assert forall i :: 0 <= i < n ==> late[..n][i] == late[i];
      assert NoIds(late) <==> NoIds(late[..n]) && late[n].id == "";
    }
  }

  lemma AddCount(calls: seq<ToolCall>, f: ToolFragment)
    ensures |AddLatest(calls, f)| == |calls| + if f.id == "" then 0 else 1
  {
  }

  lemma NoIdsOf(fragments: seq<ToolFragment>)
    ensures NoTools(fragments) ==> NoIds(fragments)
  {
  }

  /** Disciplined fragments behind a finish change the calls exactly if one of them brings an id or arguments. */
  lemma LateChange(early: seq<ToolFragment>, late: seq<ToolFragment>)
    requires Disciplined(early + late)
    ensures var (calls, all) := (Latest([], early), Latest([], early + late));
      |all| >= |calls| && Size(all) >= Size(calls) && (all == calls <==> NoTools(late)) &&
      (NoIds(late) ==> all == Append(calls, ArgumentsOf(late)) && (calls == [] ==> NoTools(late)))
  {
    hide Latest, Size, Append, ArgumentsOf, NoTools, NoIds, Disciplined;
    var calls := Latest([], early);
    LatestAppend([], early, late);
    LateCount(calls, late);
    LateSize(calls, late);
    NoIdsOf(late);
    if NoIds(late) {
      LateArguments(calls, late);
      NoArguments(late);
      AppendSize(calls, ArgumentsOf(late));
      if calls == [] { NothingEarly(early, late); }
    }
  }

  lemma {:induction false} LateSize(calls: seq<ToolCall>, late: seq<ToolFragment>)
    ensures Size(Latest(calls, late)) >= Size(calls)
    decreases |late|
  {
    hide Size, Start, Append;
    if late != [] {
      var n := |late| - 1;
      LateSize(calls, late[..n]);
      var (before, f) := (Latest(calls, late[..n]), late[n]);
      StartSize(before, f.id, f.name);
      AppendSize(before, f.arguments);
      AppendSize(Start(before, f.id, f.name), f.arguments);
    }
  }

  /** The first fragment of all opens a call. */
  lemma NothingEarly(early: seq<ToolFragment>, late: seq<ToolFragment>)
    requires Disciplined(early + late) && Latest([], early) == [] && NoIds(late)
    ensures late == [] && NoTools(late)
  {
    hide Latest;
    LateCount([], early);
    var all := early + late;
    assert Latest([], []) == [] by { LatestNothing(); }
    assert NoIds(early);
    assert forall i :: 0 <= i < |late| ==> all[|early| + i] == late[i];
    if all != [] { FirstFollows(all); }
  }

  lemma FirstFollows(fragments: seq<ToolFragment>)
    requires Disciplined(fragments) && fragments != []
    ensures fragments[0].id != ""
  {
    assert !Seen(fragments[..0], fragments[0].index) && Follows(fragments[..0], fragments[0]);
  }

  lemma LatestNothing()
    ensures Latest([], []) == []
  {
  }

  /** What comes behind the finish does not show in the final items: nothing is sent, or only arguments of a custom
      tool that leave its extracted input as it is. */
  predicate Unheard(setup: R.Setup, calls: seq<ToolCall>, late: seq<ToolFragment>) {
    NoTools(late) ||
    (NoIds(late) && calls != [] &&
     var last := calls[|calls| - 1];
     last.name in setup.customTools &&
     setup.extract(last.arguments + ArgumentsOf(late)) == setup.extract(last.arguments))
  }

  lemma ItemsIff(setup: R.Setup, early: seq<ToolFragment>, late: seq<ToolFragment>)
    requires Disciplined(early + late)
    ensures ItemsOf(setup, Latest([], early)) == ItemsOf(setup, Latest([], early + late)) <==>
      Unheard(setup, Latest([], early), late)
  {
    hide Latest, Size, ArgumentsOf, NoTools, NoIds, Disciplined;
    var calls := Latest([], early);
    LateChange(early, late);
    LatestAppend([], early, late);
    LateCount(calls, late);
    NoIdsOf(late);
    if NoIds(late) && calls != [] {
      NoArguments(late);
      AppendedItems(setup, calls, ArgumentsOf(late));
    }
  }

  lemma AppendedItems(setup: R.Setup, calls: seq<ToolCall>, text: string)
    requires calls != []
    ensures var last := calls[|calls| - 1];
      ItemsOf(setup, calls) == ItemsOf(setup, Append(calls, text)) <==>
      if last.name in setup.customTools
      then setup.extract(last.arguments + text) == setup.extract(last.arguments) else text == ""
  {
    var n := |calls| - 1;
    var (last, more) := (calls[n], Append(calls, text));
    assert more[n] == last.(arguments := last.arguments + text) && forall i :: 0 <= i < n ==> more[i] == calls[i];
    assert |last.arguments + text| == |last.arguments| + |text|;
    assert last.arguments + text == last.arguments ==> text == "";
    assert last.arguments + "" == last.arguments;
    assert ItemsOf(setup, calls)[n] == ItemOf(setup, last) && ItemsOf(setup, more)[n] == ItemOf(setup, more[n]);
    assert ItemOf(setup, last) == ItemOf(setup, more[n]) ==> ItemsOf(setup, calls) == ItemsOf(setup, more);
  }

  lemma BufferedCalls(chunks: seq<StreamChunk>)
    requires chunks != [] && NoHiddenTools(chunks) && Disciplined(AllFragments(chunks))
    ensures AnswerOf(chunks).Some? && AnswerOf(chunks).value.toolCalls == Latest([], AllFragments(chunks))
  {
    hide Disciplined, AddFragments, AddChunks, Listed, Latest;
    ChunksAdd(chunks);
    DisciplinedSame(AllFragments(chunks));
  }

  lemma EarlyAndLate(chunks: seq<StreamChunk>)
    ensures AllFragments(chunks) == AllFragments(Upto(chunks)) + AllFragments(Behind(chunks))
  {
    hide AllFragments, Upto, Behind, HasEnd;
    UptoBehind(chunks);
    Chunks.FragmentsAppend(Upto(chunks), Behind(chunks));
  }

  lemma AnthropicAgrees(mode: A.Mode, chunks: seq<StreamChunk>)
    requires chunks != [] && NoHiddenTools(chunks) && Disciplined(AllFragments(chunks))
    ensures var a := AT.Whole(mode, chunks).core.trace;
      var calls := AnswerOf(chunks).value.toolCalls;
      var good := NoTools(AllFragments(Behind(chunks))) && Landing(AE.PartsOf(mode, A.INITIAL, chunks).before);
      exists p: nat :: AT.EndsAt(a, p) && (CallsUntil(a, p) == calls <==> good)
  {
    hide Disciplined, Latest, CallsUntil, Landing, NoTools, AT.EndsAt, AT.Whole, AE.PartsOf, AllFragments, Upto,
      Behind, AnswerOf, NoHiddenTools, Size;
    var (early, late) := (AllFragments(Upto(chunks)), AllFragments(Behind(chunks)));
    BufferedCalls(chunks);
    EarlyAndLate(chunks);
    LateChange(early, late);
    CallsAtEnd(mode, chunks);
    var (a, lands) := (AT.Whole(mode, chunks).core.trace, Landing(AE.PartsOf(mode, A.INITIAL, chunks).before));
    var p: nat :| AT.EndsAt(a, p) &&
      if lands then CallsUntil(a, p) == Latest([], early) else Short(CallsUntil(a, p), Latest([], early));
    assert CallsUntil(a, p) == AnswerOf(chunks).value.toolCalls <==> NoTools(late) && lands;
  }

  lemma ResponsesAgrees(setup: R.Setup, chunks: seq<StreamChunk>)
    requires chunks != [] && NoHiddenTools(chunks) && Disciplined(AllFragments(chunks)) && setup.Valid()
    ensures var r := RS.Whole(setup, chunks).core.trace;
      exists p: nat :: CompletedAt(r, p) &&
        (ToolItems(OutputAt(r, p)) == ItemsOf(setup, AnswerOf(chunks).value.toolCalls) <==>
         Unheard(setup, Latest([], AllFragments(Upto(chunks))), AllFragments(Behind(chunks))))
  {
    hide Disciplined, Latest, ItemsOf, ToolItems, OutputAt, Unheard, CompletedAt, RS.Whole, AllFragments, Upto,
      Behind, AnswerOf, NoHiddenTools;
    var (early, late) := (AllFragments(Upto(chunks)), AllFragments(Behind(chunks)));
    BufferedCalls(chunks);
    EarlyAndLate(chunks);
    ItemsIff(setup, early, late);
    CallsAtCompletion(setup, chunks);
    var r := RS.Whole(setup, chunks).core.trace;
    var p: nat :| CompletedAt(r, p) && ToolItems(OutputAt(r, p)) == ItemsOf(setup, Latest([], early));
    assert ToolItems(OutputAt(r, p)) == ItemsOf(setup, AnswerOf(chunks).value.toolCalls) <==>
      Unheard(setup, Latest([], early), late);
  }

  /** Main result, exact, on disciplined fragments. What a client reads from StreamTranslator, block by block, until
      the message ends, is the calls of the buffered answer if and only if nothing about tools comes behind the first
      finish and the arguments of each call land while its block is open; the completed response of
      ResponsesStreamTranslator holds the buffered calls if and only if what comes behind the first finish does not
      show in its items. */
  lemma ToolCallsAgree(mode: A.Mode, setup: R.Setup, chunks: seq<StreamChunk>)
    requires chunks != [] && NoHiddenTools(chunks) && Disciplined(AllFragments(chunks)) && setup.Valid()
    ensures var calls := AnswerOf(chunks).value.toolCalls;
      var late := AllFragments(Behind(chunks));
      var a := AT.Whole(mode, chunks).core.trace;
      var r := RS.Whole(setup, chunks).core.trace;
      var good := NoTools(late) && Landing(AE.PartsOf(mode, A.INITIAL, chunks).before);
      (exists p: nat :: AT.EndsAt(a, p) && (CallsUntil(a, p) == calls <==> good)) &&
      (exists p: nat :: CompletedAt(r, p) &&
         (ToolItems(OutputAt(r, p)) == ItemsOf(setup, calls) <==>
          Unheard(setup, Latest([], AllFragments(Upto(chunks))), late)))
  {
    hide Disciplined, Latest, CallsUntil, Landing, ItemsOf, ToolItems, OutputAt, Unheard, NoTools, AT.EndsAt,
      CompletedAt, AT.Whole, RS.Whole, AE.PartsOf, AllFragments, Upto, Behind, AnswerOf, NoHiddenTools;
    AnthropicAgrees(mode, chunks);
    ResponsesAgrees(setup, chunks);
  }

  /** If upstream also sends no text or reasoning after the first tool call, all three agree whenever nothing about
      tools comes behind the first finish; for StreamTranslator exactly then. */
  lemma OrderlyToolCallsAgree(mode: A.Mode, setup: R.Setup, chunks: seq<StreamChunk>)
    requires chunks != [] && NoHiddenTools(chunks) && Disciplined(AllFragments(chunks)) && setup.Valid()
    requires AO.Orderly(AO.BEGIN, chunks)
    ensures var calls := AnswerOf(chunks).value.toolCalls;
      var late := AllFragments(Behind(chunks));
      var a := AT.Whole(mode, chunks).core.trace;
      var r := RS.Whole(setup, chunks).core.trace;
      (exists p: nat :: AT.EndsAt(a, p) && (CallsUntil(a, p) == calls <==> NoTools(late))) &&
      (exists p: nat :: CompletedAt(r, p) && (NoTools(late) ==> ToolItems(OutputAt(r, p)) == ItemsOf(setup, calls)))
  {
    hide Disciplined, Latest, CallsUntil, Landing, ItemsOf, ToolItems, NoTools, AT.EndsAt, CompletedAt, AT.Whole,
      RS.Whole, AE.PartsOf, AllFragments, Upto, Behind, AnswerOf, NoHiddenTools, AO.Orderly, AY.RunActions;
    OrderlyLands(mode, chunks);
    ToolCallsAgree(mode, setup, chunks);
  }

  lemma NoItems(setup: R.Setup)
    ensures ItemsOf(setup, []) == []
  {
  }

  lemma LateFacts(x: StreamChunk, y: StreamChunk, f: ToolFragment)
    requires Ends(x) && x.choices[0].content == "" && x.choices[0].reasoning == "" && x.choices[0].toolCalls == []
    requires y == Plain("", [f]) && f.id != "" && f.arguments != ""
    ensures NoHiddenTools([x, y]) && Disciplined(AllFragments([x, y]))
    ensures AllFragments([x, y]) == [f] && AllFragments(Upto([x, y])) == []
    ensures Latest([], [f]) == [ToolCall(f.id, f.name, f.arguments)] && Latest([], []) == []
  {
    assert [] + ([f] + []) == [f] && [x] + [y] == [x, y] && [y] + [] == [y] && [x] + [] == [x];
    FragmentsCons(x, []);
    FragmentsCons(y, []);
    FragmentsCons(x, [y]);
    LatestOne([], f);
    assert "" + f.arguments == f.arguments;
    assert [f][..0] == [];
  }

  lemma LateIsOrderly(x: StreamChunk, y: StreamChunk, f: ToolFragment)
    requires Ends(x) && x.choices[0].content == "" && x.choices[0].reasoning == "" && x.choices[0].toolCalls == []
    requires y == Plain("", [f]) && f.id != ""
    ensures AO.Orderly(AO.BEGIN, [x, y])
  {
    hide Keepalive, AO.HasId;
    var q := AO.NextPhase(AO.BEGIN, x);
    assert [f][1..] == [] && [x, y][1..] == [y] && [y][1..] == [];
    assert AO.Addressed(true, []) && AO.Addressed(false, []);
    assert AO.Addressed(q.open, [f]);
    assert AO.Orderly(AO.NextPhase(q, y), []);
    assert AO.Orderly(q, [y]);
  }

  /** A chunk that only finishes, then a tool call: the buffered answer has it, and no closing event does. */
  lemma LateToolCall(mode: A.Mode, setup: R.Setup, reason: string)
    requires setup.Valid()
    ensures var chunks :=
      [StreamChunk("", "", 0, [Choice("", "", [], Some(reason))], None), Plain("", [ToolFragment(0, "a", "f", "1")])];
      var a := AT.Whole(mode, chunks).core.trace;
      var r := RS.Whole(setup, chunks).core.trace;
      AO.Orderly(AO.BEGIN, chunks) && AnswerOf(chunks).value.toolCalls == [ToolCall("a", "f", "1")] &&
      (exists p: nat :: AT.EndsAt(a, p) && CallsUntil(a, p) == []) &&
      (exists p: nat :: CompletedAt(r, p) && ToolItems(OutputAt(r, p)) == [])
  {
    hide CallsUntil, Landing, ItemsOf, ToolItems, OutputAt, AT.EndsAt, CompletedAt, AT.Whole, RS.Whole, AE.PartsOf,
      AO.Orderly, AY.RunActions;
    var f := ToolFragment(0, "a", "f", "1");
    var (x, y) := (StreamChunk("", "", 0, [Choice("", "", [], Some(reason))], None), Plain("", [f]));
    var chunks := [x, y];
    LateFacts(x, y, f);
    LateIsOrderly(x, y, f);
    OrderlyLands(mode, chunks);
    CallsAtEnd(mode, chunks);
    CallsAtCompletion(setup, chunks);
    BufferedCalls(chunks);
    NoItems(setup);
    var (a, r) := (AT.Whole(mode, chunks).core.trace, RS.Whole(setup, chunks).core.trace);
    var p: nat :| AT.EndsAt(a, p) && CallsUntil(a, p) == [];
    var q: nat :| CompletedAt(r, q) && ToolItems(OutputAt(r, q)) == [];
  }
}
