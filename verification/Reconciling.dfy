/** Reconciliation: pending artifacts whose dispatch went stale are stamped and published again, lowest ids first. */
module Reconciling {
  import opened Options
  import opened Staging
  import opened ArtifactStore
  import HarvestTables
  import F = FetchProtocol

  const TIMEOUT := HarvestTables.DISPATCH_TIMEOUT

  predicate IsStale(artifacts: map<nat, Artifact>, k: nat, corpus: string, now: int) {
    k in artifacts && artifacts[k].corpus == corpus && artifacts[k].status.Pending? &&
    (artifacts[k].dispatchedAt.None? || artifacts[k].dispatchedAt.value <= now - TIMEOUT)
  }

  /** The stale ids below `n`, ascending. */
  function StaleIds(artifacts: map<nat, Artifact>, n: nat, corpus: string, now: int): seq<nat> {
    if n == 0 then []
    else StaleIds(artifacts, n - 1, corpus, now) + if IsStale(artifacts, n - 1, corpus, now) then [n - 1] else []
  }

  function Take(ids: seq<nat>, limit: nat): seq<nat> { if |ids| <= limit then ids else ids[..limit] }

  function Skip(ids: seq<nat>, limit: nat): seq<nat> { if |ids| <= limit then [] else ids[limit..] }

  /** The rows after a pass at `now` over `ids`: each of them newly stamped, everything else as it was. */
  ghost predicate Restamped(a: map<nat, Artifact>, b: map<nat, Artifact>, ids: seq<nat>, now: int, firstDispatch: nat) {
    a.Keys == b.Keys &&
    (forall k :: k in a && k !in ids ==> b[k] == a[k]) &&
    forall i :: 0 <= i < |ids| && ids[i] in a ==>
      b[ids[i]] == a[ids[i]].(dispatchedAt := Some(now), dispatchId := Some(firstDispatch + i))
  }

  lemma {:induction false} StaleIdsAre(artifacts: map<nat, Artifact>, n: nat, corpus: string, now: int)
    ensures var ids := StaleIds(artifacts, n, corpus, now);
      (forall k: nat :: k in ids <==> k < n && IsStale(artifacts, k, corpus, now)) &&
      forall i, j :: 0 <= i < j < |ids| ==> ids[i] < ids[j]
  {
    if n > 0 {
      var rest := StaleIds(artifacts, n - 1, corpus, now);
      StaleIdsAre(artifacts, n - 1, corpus, now);
      forall i | 0 <= i < |rest| ensures rest[i] < n - 1 { assert rest[i] in rest; }
    }
  }

  method SelectPendingStale(st: Store, corpus: string, now: int, limit: nat) returns (ids: seq<nat>)
    ensures ids == Take(StaleIds(st.artifacts, st.nextId, corpus, now), limit)
  {
    ids := [];
    for k := 0 to st.nextId
      invariant ids == StaleIds(st.artifacts, k, corpus, now)
    {
      if IsStale(st.artifacts, k, corpus, now) { ids := ids + [k]; }
    }
    if |ids| > limit { ids := ids[..limit]; }
  }

  /** The tasks of one pass whose send did not fail, in order. */
  function TasksFor(corpus: string, ids: seq<nat>, now: int, firstDispatch: nat, fails: set<nat>): seq<FetchTask> {
    if ids == [] then []
    else
      var last := |ids| - 1;
      TasksFor(corpus, ids[..last], now, firstDispatch, fails) +
      if ids[last] in fails then [] else [FetchTask(corpus, ids[last], firstDispatch + last, now)]
  }

  /** A pending artifact without a stamp, or with one that is half an hour old. */
  ghost predicate Stale(a: Artifact, corpus: string, now: int) {
    a.corpus == corpus && a.status == F.Pending && (a.dispatchedAt.None? || a.dispatchedAt.value + 1800 <= now)
  }

  /** The lowest stale ids in order, at most `limit`; a stale one below `n` that is left out comes after a full batch.
      */
  ghost predicate LowestStale(a: map<nat, Artifact>, n: nat, corpus: string, now: int, limit: nat, ids: seq<nat>) {
    |ids| <= limit && (forall i, j :: 0 <= i < j < |ids| ==> ids[i] < ids[j]) &&
    (forall k :: k in ids ==> k in a && Stale(a[k], corpus, now)) &&
    forall k: nat :: k < n && k in a && Stale(a[k], corpus, now) && k !in ids ==>
      |ids| == limit && forall i :: 0 <= i < |ids| ==> ids[i] < k
  }

  lemma TakenAreLowest(a: map<nat, Artifact>, n: nat, corpus: string, now: int, limit: nat)
    ensures LowestStale(a, n, corpus, now, limit, Take(StaleIds(a, n, corpus, now), limit))
  {
    var all, ids := StaleIds(a, n, corpus, now), Take(StaleIds(a, n, corpus, now), limit);
    StaleIdsAre(a, n, corpus, now);
    forall k | k in ids ensures k in a && Stale(a[k], corpus, now) {
      var i :| 0 <= i < |ids| && ids[i] == k;
      assert all[i] in all;
    }
    forall k: nat | k < n && k in a && Stale(a[k], corpus, now) && k !in ids
      ensures |ids| == limit && forall i :: 0 <= i < |ids| ==> ids[i] < k
    {
      assert IsStale(a, k, corpus, now);
      var j :| 0 <= j < |all| && all[j] == k;
      assert forall i :: 0 <= i < |ids| ==> ids[i] == all[i] && ids[i] in ids;
    }
  }

  /** The messages of a pass: one for each id whose send did not fail, with the stamp the row got, in order. */
  ghost predicate SentFor(sent: seq<FetchTask>, corpus: string, ids: seq<nat>, now: int, first: nat, fails: set<nat>) {
    (forall task :: task in sent <==>
      exists i :: 0 <= i < |ids| && ids[i] !in fails && task == FetchTask(corpus, ids[i], first + i, now)) &&
    forall i, j :: 0 <= i < j < |sent| ==> sent[i].dispatchId < sent[j].dispatchId
  }

  lemma {:induction false} TasksAreSent(corpus: string, ids: seq<nat>, now: int, first: nat, fails: set<nat>)
    ensures SentFor(TasksFor(corpus, ids, now, first, fails), corpus, ids, now, first, fails)
    ensures forall task :: task in TasksFor(corpus, ids, now, first, fails) ==> task.dispatchId < first + |ids|
    decreases |ids|
  {
    if ids != [] {
      var last := |ids| - 1;
      TasksAreSent(corpus, ids[..last], now, first, fails);
      var before, sent := TasksFor(corpus, ids[..last], now, first, fails), TasksFor(corpus, ids, now, first, fails);
      forall task ensures task in sent <==>
        exists i :: 0 <= i < |ids| && ids[i] !in fails && task == FetchTask(corpus, ids[i], first + i, now)
      {
        if i :| 0 <= i < |ids| && ids[i] !in fails && task == FetchTask(corpus, ids[i], first + i, now) {
          if i < last { assert ids[..last][i] == ids[i]; }
        }
        if task in before {
          var i :| 0 <= i < last && ids[..last][i] !in fails &&
            task == FetchTask(corpus, ids[..last][i], first + i, now);
          assert ids[i] !in fails;
        }
      }
      forall i, j | 0 <= i < j < |sent| ensures sent[i].dispatchId < sent[j].dispatchId {
        assert sent[i] == before[i] && before[i] in before;
      }
    }
  }

  /** One pass. `fails` are the artifacts whose send raises: they stay stamped and go stale again. */
  method ReconcileFetch(st: Store, corpus: string, now: int, limit: nat, fails: set<nat>)
      returns (republished: nat, ghost ids: seq<nat>)
    requires st.Valid()
    modifies st`artifacts, st`nextDispatch, st`published
    ensures st.Valid() && ids == Take(StaleIds(old(st.artifacts), st.nextId, corpus, now), limit)
    ensures Restamped(old(st.artifacts), st.artifacts, ids, now, old(st.nextDispatch))
    ensures st.nextDispatch == old(st.nextDispatch) + |ids|
    ensures st.published == old(st.published) + TasksFor(corpus, ids, now, old(st.nextDispatch), fails)
    ensures republished == |TasksFor(corpus, ids, now, old(st.nextDispatch), fails)|
    ensures LowestStale(old(st.artifacts), st.nextId, corpus, now, limit, ids)
    ensures old(st.published) <= st.published && republished == |st.published| - |old(st.published)| &&
      SentFor(st.published[|old(st.published)|..], corpus, ids, now, old(st.nextDispatch), fails)
  {
    TakenAreLowest(st.artifacts, st.nextId, corpus, now, limit);
    var stale := SelectPendingStale(st, corpus, now, limit);
    ids := stale;
    StaleIdsAre(st.artifacts, st.nextId, corpus, now);
    ghost var sent, first := st.published, st.nextDispatch;
    republished := RepublishAll(st, corpus, stale, now, fails);
    TasksAreSent(corpus, stale, now, first, fails);
    assert st.published[|sent|..] == TasksFor(corpus, stale, now, first, fails);
  }

  method RepublishAll(st: Store, corpus: string, stale: seq<nat>, now: int, fails: set<nat>) returns (republished: nat)
    requires st.Valid() && forall i, j :: 0 <= i < j < |stale| ==> stale[i] != stale[j]
    modifies st`artifacts, st`nextDispatch, st`published
    ensures st.Valid() && st.nextDispatch == old(st.nextDispatch) + |stale|
    ensures Restamped(old(st.artifacts), st.artifacts, stale, now, old(st.nextDispatch))
    ensures st.published == old(st.published) + TasksFor(corpus, stale, now, old(st.nextDispatch), fails)
    ensures republished == |TasksFor(corpus, stale, now, old(st.nextDispatch), fails)|
  {
    ghost var before, first, sent := st.artifacts, st.nextDispatch, st.published;
    republished := 0;
    for i := 0 to |stale|
      invariant st.Valid() && st.nextDispatch == first + i
      invariant Restamped(before, st.artifacts, stale[..i], now, first)
      invariant st.published == sent + TasksFor(corpus, stale[..i], now, first, fails)
      invariant |st.published| == |sent| + republished
    {
      ghost var mid := st.artifacts;
      assert stale[..i + 1][..i] == stale[..i] && stale[..i + 1][i] == stale[i];
      var ok := Republish(st, corpus, stale[i], now, fails);
      RestampOne(before, mid, st.artifacts, stale, i, now, first);
      if ok { republished := republished + 1; }
    }
    assert stale[..|stale|] == stale;
  }

  method Republish(st: Store, corpus: string, id: nat, now: int, fails: set<nat>) returns (ok: bool)
    requires st.Valid()
    modifies st`artifacts, st`nextDispatch, st`published
    ensures st.Valid() && st.nextDispatch == old(st.nextDispatch) + 1 && ok == (id !in fails)
    ensures st.artifacts ==
      if id in old(st.artifacts)
      then old(st.artifacts)[id := old(st.artifacts)[id].(dispatchedAt := Some(now),
        dispatchId := Some(old(st.nextDispatch)))]
      else old(st.artifacts)
    ensures st.published == old(st.published) + if ok then [FetchTask(corpus, id, old(st.nextDispatch), now)] else []
  {
    var dispatchId := st.StampArtifact(id, now);
    ok := id !in fails;
    if ok { st.published := st.published + [FetchTask(corpus, id, dispatchId, now)]; }
  }

  lemma RestampOne(a: map<nat, Artifact>, mid: map<nat, Artifact>, b: map<nat, Artifact>, ids: seq<nat>, i: nat,
                   now: int, first: nat)
    requires i < |ids| && (forall j :: 0 <= j < i ==> ids[j] != ids[i]) && Restamped(a, mid, ids[..i], now, first)
    requires b == if ids[i] in mid then mid[ids[i] := mid[ids[i]].(dispatchedAt := Some(now),
      dispatchId := Some(first + i))] else mid
    ensures Restamped(a, b, ids[..i + 1], now, first)
  {
    assert ids[..i + 1] == ids[..i] + [ids[i]];
    assert ids[i] !in ids[..i];
  }

  // ---- several passes

  /** A pass's rows are no longer stale until the timeout; every other row is as stale as it was. */
  lemma {:induction false} PassDropsIds(a: map<nat, Artifact>, b: map<nat, Artifact>, n: nat, corpus: string,
                                        ids: seq<nat>,
                                        now: int, first: nat, later: int)
    requires Restamped(a, b, ids, now, first) && now <= later < now + TIMEOUT
    ensures forall k: nat :: k < n ==> (IsStale(b, k, corpus, later) <==> IsStale(a, k, corpus, later) && k !in ids)
  {
    forall k: nat | k < n ensures IsStale(b, k, corpus, later) <==> IsStale(a, k, corpus, later) && k !in ids {
      if k in ids && k in a {
        var i :| 0 <= i < |ids| && ids[i] == k;
        assert b[k].dispatchedAt == Some(now);
      }
    }
  }

  /** A stale id is among the first `limit` exactly when fewer than that come before it. */
  lemma InFirst(a: map<nat, Artifact>, n: nat, m: nat, corpus: string, limit: nat, now: int)
    requires 0 < n <= m && IsStale(a, n - 1, corpus, now)
    ensures n - 1 in Take(StaleIds(a, m, corpus, now), limit) <==> |StaleIds(a, n - 1, corpus, now)| < limit
  {
    var all, before := StaleIds(a, m, corpus, now), StaleIds(a, n - 1, corpus, now);
    PrefixOf(a, n, m, corpus, now);
    assert all[|before|] == n - 1;
    StaleIdsAre(a, m, corpus, now);
    if |before| < limit {
      assert Take(all, limit)[|before|] == n - 1;
    } else {
      forall i | 0 <= i < |Take(all, limit)| ensures Take(all, limit)[i] != n - 1 { assert all[i] < all[|before|]; }
    }
  }

  /** Dropping the first ids of an ascending list of stale ones leaves the rest of the list. */
  lemma {:induction false} DropFirst(a: map<nat, Artifact>, b: map<nat, Artifact>, n: nat, m: nat, corpus: string,
                                     limit: nat, later: int)
    requires n <= m
    requires forall k: nat :: k < m ==>
      (IsStale(b, k, corpus, later) <==>
        IsStale(a, k, corpus, later) && k !in Take(StaleIds(a, m, corpus, later), limit))
    ensures StaleIds(b, n, corpus, later) == Skip(StaleIds(a, n, corpus, later), limit)
  {
    if n > 0 {
      DropFirst(a, b, n - 1, m, corpus, limit, later);
      if IsStale(a, n - 1, corpus, later) { InFirst(a, n, m, corpus, limit, later); }
    }
  }

  lemma {:induction false} PrefixOf(a: map<nat, Artifact>, n: nat, m: nat, corpus: string, now: int)
    requires n <= m
    ensures StaleIds(a, n, corpus, now) <= StaleIds(a, m, corpus, now)
    decreases m - n
  {
    if n < m { PrefixOf(a, n, m - 1, corpus, now); }
  }

  /** One pass at `now` leads from table `a` to table `b`. */
  ghost predicate Pass(a: map<nat, Artifact>, b: map<nat, Artifact>, n: nat, corpus: string, now: int, cap: nat,
                       first: nat) {
    Restamped(a, b, Take(StaleIds(a, n, corpus, now), cap), now, first)
  }

  /** Passes close together, and no other row going stale meanwhile. */
  ghost predicate Passes(tables: seq<map<nat, Artifact>>, times: seq<int>, firsts: seq<nat>, n: nat, corpus: string,
                         cap: nat) {
    |tables| == |times| + 1 && |firsts| == |times| > 0 &&
    (forall j :: 0 <= j < |times| ==> Pass(tables[j], tables[j + 1], n, corpus, times[j], cap, firsts[j])) &&
    (forall j, l :: 0 <= j <= l < |times| ==> times[j] <= times[l] < times[0] + TIMEOUT) &&
    forall j :: 0 <= j < |times| ==>
      StaleIds(tables[0], n, corpus, times[j]) == StaleIds(tables[0], n, corpus, times[0])
  }

  lemma SkipSkip(ids: seq<nat>, a: nat, b: nat)
    ensures Skip(Skip(ids, a), b) == Skip(ids, a + b)
  {
  }

  lemma SkipMore(ids: seq<nat>, j: nat, cap: nat)
    requires j > 0
    ensures Skip(Skip(ids, (j - 1) * cap), cap) == Skip(ids, j * cap)
  {
    assert j * cap == (j - 1) * cap + cap;
    SkipSkip(ids, (j - 1) * cap, cap);
  }

  lemma OnePass(a: map<nat, Artifact>, b: map<nat, Artifact>, n: nat, corpus: string, now: int, cap: nat, first: nat,
                later: int)
    requires Pass(a, b, n, corpus, now, cap, first) && now <= later < now + TIMEOUT
    requires StaleIds(a, n, corpus, later) == StaleIds(a, n, corpus, now)
    ensures StaleIds(b, n, corpus, later) == Skip(StaleIds(a, n, corpus, later), cap)
  {
    PassDropsIds(a, b, n, corpus, Take(StaleIds(a, n, corpus, now), cap), now, first, later);
    DropFirst(a, b, n, n, corpus, cap, later);
  }

  /** Before pass `j`, what is stale is what the first `j` passes left over. */
  lemma {:induction false} LeftOver(tables: seq<map<nat, Artifact>>, times: seq<int>, firsts: seq<nat>, n: nat,
                                    corpus: string,
                                    cap: nat, j: nat, l: nat)
    requires Passes(tables, times, firsts, n, corpus, cap) && j <= l < |times|
    ensures StaleIds(tables[j], n, corpus, times[l]) == Skip(StaleIds(tables[0], n, corpus, times[0]), j * cap)
    decreases j
  {
    if j > 0 {
      LeftOver(tables, times, firsts, n, corpus, cap, j - 1, j - 1);
      LeftOver(tables, times, firsts, n, corpus, cap, j - 1, l);
      assert times[j - 1] <= times[l] < times[0] + TIMEOUT && times[0] <= times[j - 1];
      OnePass(tables[j - 1], tables[j], n, corpus, times[j - 1], cap, firsts[j - 1], times[l]);
      SkipMore(StaleIds(tables[0], n, corpus, times[0]), j, cap);
    } else {
      assert 0 * cap == 0;
    }
  }

  /** The ids stamped by the first `k` passes, in order. */
  ghost function Chosen(tables: seq<map<nat, Artifact>>, times: seq<int>, n: nat, corpus: string, cap: nat,
                        k: nat): seq<nat>
    requires k <= |times| <= |tables|
  {
    if k == 0 then []
    else Chosen(tables, times, n, corpus, cap, k - 1) + Take(StaleIds(tables[k - 1], n, corpus, times[k - 1]), cap)
  }

  lemma TakeMore(ids: seq<nat>, a: nat, b: nat)
    ensures Take(ids, a) + Take(Skip(ids, a), b) == Take(ids, a + b)
  {
  }

  /** `k` passes within the timeout stamp exactly the first `min(N, k * cap)` of the N stale artifacts, in order. */
  lemma {:induction false} PassesCover(tables: seq<map<nat, Artifact>>, times: seq<int>, firsts: seq<nat>, n: nat,
                                       corpus: string,
                                       cap: nat, k: nat)
    requires Passes(tables, times, firsts, n, corpus, cap) && k <= |times|
    ensures Chosen(tables, times, n, corpus, cap, k) == Take(StaleIds(tables[0], n, corpus, times[0]), k * cap)
    decreases k
  {
    if k > 0 {
      PassesCover(tables, times, firsts, n, corpus, cap, k - 1);
      LeftOver(tables, times, firsts, n, corpus, cap, k - 1, k - 1);
      TakeMore(StaleIds(tables[0], n, corpus, times[0]), (k - 1) * cap, cap);
      assert k * cap == (k - 1) * cap + cap;
    } else {
      assert 0 * cap == 0;
    }
  }

  /** Rows that were not chosen are untouched. */
  lemma {:induction false} OthersUntouched(tables: seq<map<nat, Artifact>>, times: seq<int>, firsts: seq<nat>, n: nat,
                                           corpus: string, cap: nat, k: nat, id: nat)
    requires Passes(tables, times, firsts, n, corpus, cap) && k <= |times|
    requires id in tables[0] && id !in Chosen(tables, times, n, corpus, cap, k)
    ensures id in tables[k] && tables[k][id] == tables[0][id]
    decreases k
  {
    if k > 0 {
      assert id !in Take(StaleIds(tables[k - 1], n, corpus, times[k - 1]), cap);
      OthersUntouched(tables, times, firsts, n, corpus, cap, k - 1, id);
      assert Pass(tables[k - 1], tables[k], n, corpus, times[k - 1], cap, firsts[k - 1]);
    }
  }
}
