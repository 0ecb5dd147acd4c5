/** Splitting a batch of searched items into triage calls, and handing each call's verdicts back. */
module TriageBatching {
  import opened Options

  datatype Item<R> = Item(id: nat, results: seq<R>)

  function Size<R>(chunk: seq<Item<R>>): nat {
    if chunk == [] then 0 else Size(chunk[..|chunk| - 1]) + |chunk[|chunk| - 1].results|
  }

  function Flatten<T>(chunks: seq<seq<T>>): seq<T> {
    if chunks == [] then [] else Flatten(chunks[..|chunks| - 1]) + chunks[|chunks| - 1]
  }

  /** No empty chunk, and only a chunk of one item may exceed the cap. */
  ghost predicate Valid<R>(chunks: seq<seq<Item<R>>>, cap: int) {
    forall i :: 0 <= i < |chunks| ==> |chunks[i]| >= 1 && (|chunks[i]| >= 2 ==> Size(chunks[i]) <= cap)
  }

  /** Chunk `i` was closed because the next item would not have fitted. */
  ghost predicate Closed<R>(chunks: seq<seq<Item<R>>>, i: nat, cap: int)
    requires i + 1 < |chunks|
  {
    |chunks[i + 1]| >= 1 && Size(chunks[i]) + |chunks[i + 1][0].results| > cap
  }

  ghost predicate Greedy<R>(chunks: seq<seq<Item<R>>>, cap: int) {
    forall i: nat :: i + 1 < |chunks| ==> Closed(chunks, i, cap)
  }

  /** The chunks so far with the open one: it is empty only at the start. */
  ghost predicate Progress<R>(chunks: seq<seq<Item<R>>>, current: seq<Item<R>>, items: seq<Item<R>>, cap: int) {
    Flatten(chunks) + current == items && (current == [] ==> chunks == []) &&
    (current != [] ==> Valid(chunks + [current], cap) && Greedy(chunks + [current], cap))
  }

  method TriageChunks<R>(items: seq<Item<R>>, cap: int) returns (chunks: seq<seq<Item<R>>>)
    ensures Flatten(chunks) == items && Valid(chunks, cap) && Greedy(chunks, cap)
    ensures forall other: seq<seq<Item<R>>> :: Flatten(other) == items && Valid(other, cap) ==> |chunks| <= |other|
  {
    chunks := [];
    var current: seq<Item<R>> := [];
    var count := 0;
    for i := 0 to |items|
      invariant Progress(chunks, current, items[..i], cap) && count == Size(current)
    {
      var item := items[i];
      var n := |item.results|;
      NextItem(chunks, current, items[..i], item, cap);
      assert items[..i + 1] == items[..i] + [item];
      if current != [] && count + n > cap {
        chunks := chunks + [current];
        current, count := [], 0;
      }
      assert (current + [item])[..|current|] == current;
      current := current + [item];
      count := count + n;
    }
    assert items[..|items|] == items;
    if current != [] {
      assert (chunks + [current])[..|chunks|] == chunks;
      chunks := chunks + [current];
    }
    ShortestOfAll(chunks, cap);
  }

  lemma NextItem<R>(chunks: seq<seq<Item<R>>>, current: seq<Item<R>>, items: seq<Item<R>>, item: Item<R>, cap: int)
    requires Progress(chunks, current, items, cap)
    ensures if current != [] && Size(current) + |item.results| > cap
            then Progress(chunks + [current], [item], items + [item], cap)
            else Progress(chunks, current + [item], items + [item], cap)
  {
    if current != [] && Size(current) + |item.results| > cap {
      OpenChunk(chunks + [current], item, cap);
      assert (chunks + [current])[..|chunks|] == chunks;
    } else {
      GrowChunk(chunks, current, item, cap);
      assert Flatten(chunks) + (current + [item]) == items + [item];
    }
  }

  lemma OpenChunk<R>(chunks: seq<seq<Item<R>>>, item: Item<R>, cap: int)
    requires chunks != [] && Valid(chunks, cap) && Greedy(chunks, cap)
    requires Size(chunks[|chunks| - 1]) + |item.results| > cap
    ensures Valid(chunks + [[item]], cap) && Greedy(chunks + [[item]], cap)
  {
    var all := chunks + [[item]];
    forall i: nat | i + 1 < |all| ensures Closed(all, i, cap) {
      if i + 1 < |chunks| { assert Closed(chunks, i, cap); }
    }
  }

  lemma GrowChunk<R>(chunks: seq<seq<Item<R>>>, current: seq<Item<R>>, item: Item<R>, cap: int)
    requires current == [] ==> chunks == []
    requires current != [] ==> Valid(chunks + [current], cap) && Greedy(chunks + [current], cap) &&
                               Size(current) + |item.results| <= cap
    ensures Valid(chunks + [current + [item]], cap) && Greedy(chunks + [current + [item]], cap)
  {
    var all, before := chunks + [current + [item]], chunks + [current];
    assert (current + [item])[..|current|] == current;
    forall i | 0 <= i < |all| ensures |all[i]| >= 1 && (|all[i]| >= 2 ==> Size(all[i]) <= cap) {
      if i < |chunks| { assert all[i] == before[i]; }
    }
    forall i: nat | i + 1 < |all| ensures Closed(all, i, cap) {
      assert Closed(before, i, cap) && all[i] == before[i];
    }
  }

  // ---- no valid split has fewer chunks

  /** How many items the first `k` chunks hold. */
  ghost function Held<T>(chunks: seq<seq<T>>, k: nat): nat
    requires k <= |chunks|
  {
    |Flatten(chunks[..k])|
  }

  lemma HeldStep<T>(chunks: seq<seq<T>>, k: nat)
    requires k < |chunks|
    ensures Held(chunks, k + 1) == Held(chunks, k) + |chunks[k]|
  {
    assert chunks[..k + 1][..k] == chunks[..k];
  }

  lemma {:induction false} FlattenPrefix<T>(chunks: seq<seq<T>>, k: nat)
    requires k <= |chunks|
    ensures Held(chunks, k) <= |Flatten(chunks)| && Flatten(chunks)[..Held(chunks, k)] == Flatten(chunks[..k])
    decreases |chunks|
  {
    if k == |chunks| {
      assert chunks[..k] == chunks;
    } else {
      var n := |chunks| - 1;
      FlattenPrefix(chunks[..n], k);
      assert chunks[..n][..k] == chunks[..k];
    }
  }

  lemma ChunkIsSlice<T>(chunks: seq<seq<T>>, k: nat)
    requires k < |chunks|
    ensures Held(chunks, k + 1) == Held(chunks, k) + |chunks[k]| <= |Flatten(chunks)|
    ensures chunks[k] == Flatten(chunks)[Held(chunks, k)..Held(chunks, k + 1)]
  {
    HeldStep(chunks, k);
    FlattenPrefix(chunks, k + 1);
    assert chunks[..k + 1][..k] == chunks[..k];
    assert Flatten(chunks[..k + 1]) == Flatten(chunks[..k]) + chunks[k];
  }

  lemma {:induction false} SizeConcat<R>(a: seq<Item<R>>, b: seq<Item<R>>)
    ensures Size(a + b) == Size(a) + Size(b)
  {
    if b == [] {
      assert a + b == a;
    } else {
      SizeConcat(a, b[..|b| - 1]);
      assert (a + b)[..|a + b| - 1] == a + b[..|b| - 1];
    }
  }

  lemma SizeOfOne<R>(item: Item<R>)
    ensures Size([item]) == |item.results|
  {
    assert [item][..0] == [];
  }

  /** A slice of the items holding a greedy chunk and the item after it exceeds the cap. */
  lemma SliceTooBig<R>(items: seq<Item<R>>, lo: nat, a: nat, b: nat, hi: nat, cap: int)
    requires lo <= a < b < hi <= |items|
    requires Size(items[a..b]) + |items[b].results| > cap
    ensures Size(items[lo..hi]) > cap
  {
    SizeSlices(items, lo, a, hi);
    SizeSlices(items, a, b, hi);
    SizeSlices(items, b, b + 1, hi);
    assert items[b..b + 1] == [items[b]] && [items[b]][..0] == [];
    assert Size([items[b]]) == Size([items[b]][..0]) + |items[b].results|;
  }

  lemma SizeSlices<R>(items: seq<Item<R>>, a: nat, b: nat, c: nat)
    requires a <= b <= c <= |items|
    ensures Size(items[a..c]) == Size(items[a..b]) + Size(items[b..c])
  {
    SizeConcat(items[a..b], items[b..c]);
    assert items[a..b] + items[b..c] == items[a..c];
  }

  lemma HeldAll<T>(chunks: seq<seq<T>>)
    ensures Held(chunks, |chunks|) == |Flatten(chunks)|
  {
    assert chunks[..|chunks|] == chunks;
  }

  /** The greedy split stays ahead: its first `k` chunks hold at least as many items as any valid split's. */
  lemma {:induction false} GreedyStaysAhead<R>(greedy: seq<seq<Item<R>>>, other: seq<seq<Item<R>>>, cap: int, k: nat)
    requires Flatten(greedy) == Flatten(other) && Valid(greedy, cap) && Greedy(greedy, cap) && Valid(other, cap)
    requires k <= |greedy| && k <= |other|
    ensures Held(greedy, k) >= Held(other, k)
  {
    if k > 0 {
      GreedyStaysAhead(greedy, other, cap, k - 1);
      ChunkIsSlice(greedy, k - 1);
      ChunkIsSlice(other, k - 1);
      HeldAll(greedy);
      if k < |greedy| {
        ChunkIsSlice(greedy, k);
        assert Closed(greedy, k - 1, cap);
        assert Flatten(greedy)[Held(greedy, k)] == greedy[k][0];
        if Held(other, k) > Held(greedy, k) {
          SliceTooBig(Flatten(greedy), Held(other, k - 1), Held(greedy, k - 1), Held(greedy, k), Held(other, k), cap);
        }
      }
    }
  }

  lemma GreedyIsShortest<R>(greedy: seq<seq<Item<R>>>, other: seq<seq<Item<R>>>, cap: int)
    requires Flatten(greedy) == Flatten(other) && Valid(greedy, cap) && Greedy(greedy, cap) && Valid(other, cap)
    ensures |greedy| <= |other|
  {
    HeldAll(other);
    if |greedy| > |other| {
      GreedyStaysAhead(greedy, other, cap, |other|);
      ChunkIsSlice(greedy, |other|);
    }
  }

  lemma ShortestOfAll<R>(greedy: seq<seq<Item<R>>>, cap: int)
    requires Valid(greedy, cap) && Greedy(greedy, cap)
    ensures forall other: seq<seq<Item<R>>> ::
              Flatten(other) == Flatten(greedy) && Valid(other, cap) ==> |greedy| <= |other|
  {
    forall other: seq<seq<Item<R>>> | Flatten(other) == Flatten(greedy) && Valid(other, cap)
      ensures |greedy| <= |other|
    {
      GreedyIsShortest(greedy, other, cap);
    }
  }

  // ---- one triage call

  datatype Verdict<V> = Verdict(index: int, value: V)

  /** The number of results in the requests before request `i`. */
  function Offset(counts: seq<nat>, i: nat): nat
    requires i <= |counts|
  {
    if i == 0 then 0 else Offset(counts, i - 1) + counts[i - 1]
  }

  /** The last verdict given for each index. */
  function ByIndex<V>(verdicts: seq<Verdict<V>>): map<int, V> {
    if verdicts == [] then map[]
    else ByIndex(verdicts[..|verdicts| - 1])[verdicts[|verdicts| - 1].index := verdicts[|verdicts| - 1].value]
  }

  /** `v` is the last verdict of the answer that carries the number `n`. */
  ghost predicate LastFor<V>(answer: seq<Verdict<V>>, n: int, v: int) {
    0 <= v < |answer| && answer[v].index == n && forall u :: v < u < |answer| ==> answer[u].index != n
  }

  ghost predicate Given<V>(answer: seq<Verdict<V>>, n: int) { exists v :: 0 <= v < |answer| && answer[v].index == n }

  /** The value is that of the last verdict carrying the number. */
  ghost predicate SaysLast<V>(answer: seq<Verdict<V>>, n: int, value: V) {
    exists v :: LastFor(answer, n, v) && answer[v].value == value
  }

  lemma {:induction false} ByIndexIsLast<V>(answer: seq<Verdict<V>>, n: int)
    ensures n in ByIndex(answer) <==> Given(answer, n)
    ensures n in ByIndex(answer) ==> SaysLast(answer, n, ByIndex(answer)[n])
    decreases |answer|
  {
    if answer != [] {
      var rest, last := answer[..|answer| - 1], |answer| - 1;
      ByIndexIsLast(rest, n);
      if Given(answer, n) && answer[last].index != n {
        var v :| 0 <= v < |answer| && answer[v].index == n;
        assert rest[v].index == n;
      }
      if answer[last].index == n {
        assert LastFor(answer, n, last);
      } else if n in ByIndex(rest) {
        var v :| LastFor(rest, n, v) && rest[v].value == ByIndex(rest)[n];
        assert LastFor(answer, n, v);
      }
    }
  }

  /** Every result was asked under a number, the numbers run through 0, 1, 2 and so on in order, and its verdict is the
      last one the answer gives for its number. */
  ghost predicate Paired<R, V>(requests: seq<seq<R>>, prompt: seq<seq<(nat, R)>>, answer: seq<Verdict<V>>,
                               out: seq<seq<V>>) {
    |prompt| == |out| == |requests| &&
    forall i :: 0 <= i < |requests| ==> RequestPaired(requests[i], prompt[i], answer, out[i])
  }

  ghost predicate RequestPaired<R, V>(request: seq<R>, lines: seq<(nat, R)>, answer: seq<Verdict<V>>, group: seq<V>) {
    |lines| == |group| == |request| &&
    forall j :: 0 <= j < |request| ==> lines[j].1 == request[j] && SaysLast(answer, lines[j].0, group[j])
  }

  /** Each line's number is one more than the line's before it, across the requests, starting from 0. */
  ghost predicate Consecutive<R>(prompt: seq<seq<(nat, R)>>) {
    var lines := Flatten(prompt);
    forall n :: 0 <= n < |lines| ==> lines[n].0 == n
  }

  lemma {:induction false} NumberedIsConsecutive<R>(requests: seq<seq<R>>, prompt: seq<seq<(nat, R)>>)
    requires |prompt| == |requests| && forall i :: 0 <= i < |requests| ==> Numbered(requests, i, prompt[i])
    ensures Consecutive(prompt) && |Flatten(prompt)| == Offset(Counts(requests), |requests|)
    decreases |requests|
  {
    if requests != [] {
      var n := |requests| - 1;
      forall i | 0 <= i < n ensures Numbered(requests[..n], i, prompt[..n][i]) {
        OffsetOfPrefix(requests, n, i);
        assert Numbered(requests, i, prompt[i]);
      }
      NumberedIsConsecutive(requests[..n], prompt[..n]);
      OffsetOfPrefix(requests, n, n);
      assert Numbered(requests, n, prompt[n]);
      FlattenLast(prompt);
    }
  }

  lemma FlattenLast<T>(chunks: seq<seq<T>>)
    requires chunks != []
    ensures Flatten(chunks) == Flatten(chunks[..|chunks| - 1]) + chunks[|chunks| - 1]
  {
  }

  lemma {:induction false} OffsetOfPrefix<R>(requests: seq<seq<R>>, n: nat, i: nat)
    requires i <= n <= |requests|
    ensures Offset(Counts(requests[..n]), i) == Offset(Counts(requests), i)
  {
    if i > 0 { OffsetOfPrefix(requests, n, i - 1); }
  }

  /** The answer covers exactly the numbers asked. */
  ghost predicate Covers<R, V>(prompt: seq<seq<(nat, R)>>, answer: seq<Verdict<V>>) {
    forall n: int :: Given(answer, n) <==> 0 <= n < |Flatten(prompt)|
  }

  lemma CoversAll<V>(answer: seq<Verdict<V>>, total: nat)
    ensures ByIndex(answer).Keys == Range(total) <==> forall n: int :: Given(answer, n) <==> 0 <= n < total
  {
    forall n: int ensures n in ByIndex(answer) <==> Given(answer, n) { ByIndexIsLast(answer, n); }
  }

  lemma GroupsArePaired<R, V>(requests: seq<seq<R>>, prompt: seq<seq<(nat, R)>>, answer: seq<Verdict<V>>,
                              out: seq<seq<V>>)
    requires |prompt| == |out| == |requests|
    requires forall i :: 0 <= i < |requests| ==> Numbered(requests, i, prompt[i])
    requires forall i :: 0 <= i < |requests| ==> Regrouped(requests, i, ByIndex(answer), out[i])
    ensures Paired(requests, prompt, answer, out)
  {
    forall i | 0 <= i < |requests| ensures RequestPaired(requests[i], prompt[i], answer, out[i]) {
      assert Numbered(requests, i, prompt[i]) && Regrouped(requests, i, ByIndex(answer), out[i]);
      forall j | 0 <= j < |requests[i]| ensures SaysLast(answer, prompt[i][j].0, out[i][j]) {
        ByIndexIsLast(answer, prompt[i][j].0);
      }
    }
  }

  function Counts<R>(requests: seq<seq<R>>): seq<nat> {
    seq(|requests|, i requires 0 <= i < |requests| => |requests[i]|)
  }

  /** The numbers 0..n-1. */
  function Range(n: nat): (s: set<int>)
    ensures forall k :: k in s <==> 0 <= k < n
  {
    if n == 0 then {} else Range(n - 1) + {n - 1}
  }

  /** The results of request `i` numbered across all requests. */
  ghost predicate Numbered<R>(requests: seq<seq<R>>, i: nat, lines: seq<(nat, R)>)
    requires i < |requests|
  {
    |lines| == |requests[i]| &&
    forall j :: 0 <= j < |lines| ==> lines[j] == (Offset(Counts(requests), i) + j, requests[i][j])
  }

  /** The verdicts of request `i`: its j-th is the one given for the number its j-th result was asked under. */
  ghost predicate Regrouped<R, V>(requests: seq<seq<R>>, i: nat, byIndex: map<int, V>, group: seq<V>)
    requires i < |requests|
  {
    |group| == |requests[i]| &&
    forall j :: 0 <= j < |group| ==>
      Offset(Counts(requests), i) + j in byIndex && group[j] == byIndex[Offset(Counts(requests), i) + j]
  }

  /** Number the results across all requests, and regroup the model's verdicts by that number.
      The call fails unless the answer covers exactly the numbers that were asked. */
  method Triage<R, V>(requests: seq<seq<R>>, answer: seq<Verdict<V>>)
    returns (prompt: seq<seq<(nat, R)>>, out: Option<seq<seq<V>>>)
    ensures |prompt| == |requests| && forall i :: 0 <= i < |requests| ==> Numbered(requests, i, prompt[i])
    ensures out.Some? <==> ByIndex(answer).Keys == Range(Offset(Counts(requests), |requests|))
    ensures out.Some? ==> |out.value| == |requests|
    ensures out.Some? ==> forall i :: 0 <= i < |requests| ==> Regrouped(requests, i, ByIndex(answer), out.value[i])
    ensures Consecutive(prompt) && (out.Some? <==> Covers(prompt, answer))
    ensures out.Some? ==> Paired(requests, prompt, answer, out.value)
  {
    prompt := [];
    var index := 0;
    for i := 0 to |requests|
      invariant |prompt| == i && index == Offset(Counts(requests), i)
      invariant forall a :: 0 <= a < i ==> Numbered(requests, a, prompt[a])
    {
      var lines: seq<(nat, R)> := [];
      for j := 0 to |requests[i]|
        invariant |lines| == j && index == Offset(Counts(requests), i) + j
        invariant forall b :: 0 <= b < j ==> lines[b] == (Offset(Counts(requests), i) + b, requests[i][b])
      {
        lines := lines + [(index, requests[i][j])];
        index := index + 1;
      }
      prompt := prompt + [lines];
    }
    NumberedIsConsecutive(requests, prompt);
    CoversAll(answer, index);
    var byIndex := ByIndex(answer);
    if byIndex.Keys != Range(index) {
      return prompt, None;
    }
    var groups := Regroup(requests, byIndex);
    out := Some(groups);
    GroupsArePaired(requests, prompt, answer, groups);
  }

  /** Walk the requests with a cursor, taking each one's verdicts from its own numbers. */
  method Regroup<R, V>(requests: seq<seq<R>>, byIndex: map<int, V>) returns (groups: seq<seq<V>>)
    requires forall k :: 0 <= k < Offset(Counts(requests), |requests|) ==> k in byIndex
    ensures |groups| == |requests| && forall i :: 0 <= i < |requests| ==> Regrouped(requests, i, byIndex, groups[i])
  {
    groups := [];
    var cursor := 0;
    for i := 0 to |requests|
      invariant |groups| == i && cursor == Offset(Counts(requests), i)
      invariant forall a :: 0 <= a < i ==> Regrouped(requests, a, byIndex, groups[a])
    {
      OffsetMonotone(Counts(requests), i + 1, |requests|);
      var group: seq<V> := [];
      for j := 0 to |requests[i]|
        invariant |group| == j
        invariant forall b :: 0 <= b < j ==> cursor + b in byIndex && group[b] == byIndex[cursor + b]
      {
        group := group + [byIndex[cursor + j]];
      }
      groups := groups + [group];
      cursor := cursor + |requests[i]|;
    }
  }

  lemma {:induction false} OffsetMonotone(counts: seq<nat>, i: nat, j: nat)
    requires i <= j <= |counts|
    ensures Offset(counts, i) <= Offset(counts, j)
  {
    if i < j { OffsetMonotone(counts, i, j - 1); }
  }
}
