/** A whole batch of query tasks, and the accounting of its messages. */
module SweepBatch {
  import opened Options
  import opened HarvestTables
  import opened HarvestProtocol
  import opened HarvestWorld
  import opened Sweeping
  import Sums = HistorySums
  import opened TriageBatching
  import ArtifactStore
  import Staging

  datatype Search<R> = RateLimited | Failed | Found(results: seq<R>)

  /** The candidates the extraction staged in turn; `raised` when an exception then ended it. */
  datatype Page = Page(urls: seq<string>, raised: bool)

  /** What the batch's messages, searches and pages turn out to be. `messages[i]` is absent when it does not parse;
      `refused` are the triage calls that fail. */
  datatype Batch<R> = Batch(messages: seq<Option<Task>>, search: seq<Search<R>>, pages: seq<Page>, refused: set<nat>)

  predicate WellFormed<R>(b: Batch<R>) {
    |b.search| == |b.messages| && |b.pages| == |b.messages|
  }

  predicate IsTask(m: Option<Task>) { m.Some? && m.value.source.Serper? }

  /** The gate lets message `i` through. */
  predicate Gates<R>(s: State, b: Batch<R>, i: nat) {
    i < |b.messages| && IsTask(b.messages[i]) && Open(s, b.messages[i].value)
  }

  ghost predicate InChunk<R>(chunk: seq<Item<R>>, i: nat) { exists k :: 0 <= k < |chunk| && chunk[k].id == i }

  /** Some triage call that did not fail held item `i`. */
  ghost predicate Triaged<R>(chunks: seq<seq<Item<R>>>, refused: set<nat>, i: nat) {
    exists c :: 0 <= c < |chunks| && c !in refused && InChunk(chunks[c], i)
  }

  /** The message is left for redelivery: its search was rate limited, or its triage call failed. */
  ghost predicate Deferred<R>(s: State, b: Batch<R>, chunks: seq<seq<Item<R>>>, i: nat)
    requires WellFormed(b)
  {
    Gates(s, b, i) && (b.search[i].RateLimited? || (b.search[i].Found? && !Triaged(chunks, b.refused, i)))
  }

  // ---- what completing items does

  datatype Tables = Tables(snap: Snap, staging: Staging.Tables)

  function CompleteItem<R>(t: Tables, b: Batch<R>, i: nat, at: Time, resweepDays: nat): Tables
    requires WellFormed(b) && i < |b.messages| && b.messages[i].Some?
  {
    var task := b.messages[i].value;
    if b.search[i].Failed? then Tables(Complete(t.snap, task, 0, true, at, resweepDays), t.staging)
    else
      var (staging, staged) := Staging.StageMany(t.staging, task.corpus, b.pages[i].urls, at);
      Tables(Complete(t.snap, task, staged, b.pages[i].raised, at, resweepDays), staging)
  }

  predicate AreTasks<R>(b: Batch<R>, ids: seq<nat>) {
    forall k :: 0 <= k < |ids| ==> ids[k] < |b.messages| && b.messages[ids[k]].Some?
  }

  function CompleteAll<R>(t: Tables, b: Batch<R>, ids: seq<nat>, at: Time, resweepDays: nat): Tables
    requires WellFormed(b) && AreTasks(b, ids)
  {
    if ids == [] then t
    else CompleteItem(CompleteAll(t, b, ids[..|ids| - 1], at, resweepDays), b, ids[|ids| - 1], at, resweepDays)
  }

  predicate RowFrom<R>(b: Batch<R>, ids: seq<nat>, row: HistoryRow)
    requires AreTasks(b, ids)
  {
    exists k :: 0 <= k < |ids| && IsKey(row, b.messages[ids[k]].value.dispatchId, b.messages[ids[k]].value.querySeq)
  }

  /** Every completed message has its row, every new row is a completed message's, and earlier rows stay. */
  lemma {:induction false} CompletedHaveRows<R>(t: Tables, b: Batch<R>, ids: seq<nat>, at: Time, resweepDays: nat)
    requires WellFormed(b) && AreTasks(b, ids)
    ensures var history := CompleteAll(t, b, ids, at, resweepDays).snap.history;
      t.snap.history <= history &&
      (forall k :: 0 <= k < |ids| ==> HasKey(history, b.messages[ids[k]].value.dispatchId,
        b.messages[ids[k]].value.querySeq)) &&
      forall j :: |t.snap.history| <= j < |history| ==> RowFrom(b, ids, history[j])
    decreases |ids|
  {
    if ids != [] {
      var rest, last := ids[..|ids| - 1], ids[|ids| - 1];
      CompletedHaveRows(t, b, rest, at, resweepDays);
      var before := CompleteAll(t, b, rest, at, resweepDays).snap.history;
      var after := CompleteAll(t, b, ids, at, resweepDays).snap.history;
      var task := b.messages[last].value;
      assert before <= after && |after| <= |before| + 1;
      forall k | 0 <= k < |ids| ensures HasKey(after, b.messages[ids[k]].value.dispatchId,
        b.messages[ids[k]].value.querySeq) {
        if k < |rest| { KeyStays(before, after, b.messages[rest[k]].value.dispatchId,
          b.messages[rest[k]].value.querySeq); }
        else if !HasKey(before, task.dispatchId, task.querySeq) { assert IsKey(after[|before|], task.dispatchId,
          task.querySeq); }
        else { KeyStays(before, after, task.dispatchId, task.querySeq); }
      }
      forall j | |t.snap.history| <= j < |after| ensures RowFrom(b, ids, after[j]) {
        if j < |before| {
          var k :| 0 <= k < |rest| && IsKey(before[j], b.messages[rest[k]].value.dispatchId,
            b.messages[rest[k]].value.querySeq);
          assert ids[k] == rest[k];
        } else {
          assert IsKey(after[j], b.messages[ids[|ids| - 1]].value.dispatchId,
            b.messages[ids[|ids| - 1]].value.querySeq);
        }
      }
    }
  }

  lemma KeyStays(before: seq<HistoryRow>, after: seq<HistoryRow>, id: nat, sq: nat)
    requires before <= after && HasKey(before, id, sq)
    ensures HasKey(after, id, sq)
  {
    var i :| 0 <= i < |before| && IsKey(before[i], id, sq);
    assert after[i] == before[i];
  }

  /** What the counter of a dispatch holds, and what its rows sum to. */
  ghost predicate CountsMove(before: Snap, after: Snap, id: nat) {
    var c := if id in before.counters then before.counters[id] else Counts(0, 0, 0);
    var c' := if id in after.counters then after.counters[id] else Counts(0, 0, 0);
    c'.done + Sums.Total(before.history, id, Sums.One) == c.done + Sums.Total(after.history, id, Sums.One) &&
    c'.candidates + Sums.Total(before.history, id, Sums.Staged) ==
      c.candidates + Sums.Total(after.history, id, Sums.Staged) &&
    c'.errors + Sums.Total(before.history, id, Sums.Errored) == c.errors + Sums.Total(after.history, id, Sums.Errored)
  }

  lemma OneCompletionCounts(s: Snap, task: Task, staged: nat, errored: bool, at: Time, resweepDays: nat, id: nat)
    ensures CountsMove(s, Complete(s, task, staged, errored, at, resweepDays), id)
  {
    if !HasKey(s.history, task.dispatchId, task.querySeq) {
      var row := Row(task, staged, errored, at);
      AppendTotal(s.history, row, id, Sums.One);
      AppendTotal(s.history, row, id, Sums.Staged);
      AppendTotal(s.history, row, id, Sums.Errored);
    }
  }

  lemma AppendTotal(history: seq<HistoryRow>, row: HistoryRow, id: nat, f: HistoryRow -> nat)
    ensures Sums.Total(history + [row], id, f) ==
      Sums.Total(history, id, f) + if row.dispatchId == id then f(row) else 0
  {
    assert (history + [row])[..|history|] == history;
  }

  /** Each dispatch's counter moved by its new rows: their number, their candidates and their errors. */
  lemma {:induction false} CountersFollowRows<R>(t: Tables, b: Batch<R>, ids: seq<nat>, at: Time, resweepDays: nat,
                                                 id: nat)
    requires WellFormed(b) && AreTasks(b, ids)
    ensures CountsMove(t.snap, CompleteAll(t, b, ids, at, resweepDays).snap, id)
    decreases |ids|
  {
    if ids != [] {
      var mid := CompleteAll(t, b, ids[..|ids| - 1], at, resweepDays);
      CountersFollowRows(t, b, ids[..|ids| - 1], at, resweepDays, id);
      ItemIsCompletion(mid, b, ids[|ids| - 1], at, resweepDays, id);
    }
  }

  lemma ItemIsCompletion<R>(t: Tables, b: Batch<R>, i: nat, at: Time, resweepDays: nat, id: nat)
    requires WellFormed(b) && i < |b.messages| && b.messages[i].Some?
    ensures CountsMove(t.snap, CompleteItem(t, b, i, at, resweepDays).snap, id)
  {
    var task := b.messages[i].value;
    if b.search[i].Failed? {
      OneCompletionCounts(t.snap, task, 0, true, at, resweepDays, id);
    } else {
      OneCompletionCounts(t.snap, task, Staging.StageMany(t.staging, task.corpus, b.pages[i].urls, at).1,
        b.pages[i].raised, at, resweepDays, id);
    }
  }

  // ---- what the new rows say

  /** The query of message `i` failed: its search raised, or its extraction did. */
  predicate Fails<R>(b: Batch<R>, i: nat)
    requires WellFormed(b) && i < |b.messages|
  {
    b.search[i].Failed? || b.pages[i].raised
  }

  /** What completing message `i` writes: its row, with the artifacts it added as its candidates. */
  ghost predicate ItemWritten<R>(t: Tables, t': Tables, b: Batch<R>, i: nat, at: Time, resweepDays: nat)
    requires WellFormed(b) && i < |b.messages| && b.messages[i].Some?
  {
    t.staging.nextId <= t'.staging.nextId && (b.search[i].Failed? ==> t'.staging == t.staging) &&
    Written(t.snap, t'.snap, b.messages[i].value, t'.staging.nextId - t.staging.nextId, Fails(b, i), at, resweepDays)
  }

  lemma ItemWrites<R>(t: Tables, b: Batch<R>, i: nat, at: Time, resweepDays: nat)
    requires WellFormed(b) && i < |b.messages| && b.messages[i].Some?
    ensures ItemWritten(t, CompleteItem(t, b, i, at, resweepDays), b, i, at, resweepDays)
  {
    var task := b.messages[i].value;
    if b.search[i].Failed? {
      CompleteWrites(t.snap, task, 0, true, at, resweepDays);
    } else {
      Staging.StagedIds(t.staging, task.corpus, b.pages[i].urls, at);
      CompleteWrites(t.snap, task, Staging.StageMany(t.staging, task.corpus, b.pages[i].urls, at).1, b.pages[i].raised,
        at, resweepDays);
    }
  }

  predicate SameKey(a: Task, b: Task) { a.dispatchId == b.dispatchId && a.querySeq == b.querySeq }

  /** The `k`-th completed message is the first of its query: no row before the batch, no message before it. */
  ghost predicate FirstOfKey<R>(history: seq<HistoryRow>, b: Batch<R>, ids: seq<nat>, k: nat)
    requires AreTasks(b, ids) && k < |ids|
  {
    var task := b.messages[ids[k]].value;
    (forall row :: row in history ==> !(row.dispatchId == task.dispatchId && row.querySeq == task.querySeq)) &&
    forall m :: 0 <= m < k ==> !SameKey(b.messages[ids[m]].value, task)
  }

  /** The artifacts each completed message added. */
  ghost function Added<R>(t: Tables, b: Batch<R>, ids: seq<nat>, at: Time, resweepDays: nat): (added: seq<int>)
    requires WellFormed(b) && AreTasks(b, ids)
    ensures |added| == |ids|
    decreases |ids|
  {
    if ids == [] then []
    else
      var rest := ids[..|ids| - 1];
      Added(t, b, rest, at, resweepDays) + [CompleteAll(t, b, ids, at, resweepDays).staging.nextId -
        CompleteAll(t, b, rest, at, resweepDays).staging.nextId]
  }

  function Sum(xs: seq<int>): int { if xs == [] then 0 else Sum(xs[..|xs| - 1]) + xs[|xs| - 1] }

  /** Together they added what the table grew by. */
  lemma {:induction false} AddedIsAll<R>(t: Tables, b: Batch<R>, ids: seq<nat>, at: Time, resweepDays: nat)
    requires WellFormed(b) && AreTasks(b, ids)
    ensures Sum(Added(t, b, ids, at, resweepDays)) ==
      CompleteAll(t, b, ids, at, resweepDays).staging.nextId - t.staging.nextId
    ensures var added := Added(t, b, ids, at, resweepDays);
      forall k :: 0 <= k < |ids| ==> added[k] >= 0 && (b.search[ids[k]].Failed? ==> added[k] == 0)
    decreases |ids|
  {
    if ids != [] {
      var rest := ids[..|ids| - 1];
      AddedIsAll(t, b, rest, at, resweepDays);
      var added := Added(t, b, ids, at, resweepDays);
      assert added[..|added| - 1] == Added(t, b, rest, at, resweepDays);
      ItemWrites(CompleteAll(t, b, rest, at, resweepDays), b, ids[|ids| - 1], at, resweepDays);
      forall k | 0 <= k < |rest| ensures added[k] >= 0 && (b.search[ids[k]].Failed? ==> added[k] == 0) {
        assert rest[k] == ids[k] && added[k] == Added(t, b, rest, at, resweepDays)[k];
      }
    }
  }

  /** The row is what the `k`-th completed message leaves: an error exactly when its search or its extraction failed,
      else candidates exactly when it staged some, and as many candidates as it added artifacts. */
  ghost predicate RowOfItem<R>(b: Batch<R>, ids: seq<nat>, added: seq<int>, k: nat, row: HistoryRow, at: Time)
    requires WellFormed(b) && AreTasks(b, ids) && k < |ids| == |added|
  {
    RowFor(row, b.messages[ids[k]].value, added[k], Fails(b, ids[k]), at)
  }

  ghost predicate HasItem<R>(before: seq<HistoryRow>, b: Batch<R>, ids: seq<nat>, added: seq<int>, row: HistoryRow,
                             at: Time)
    requires WellFormed(b) && AreTasks(b, ids) && |ids| == |added|
  {
    exists k :: 0 <= k < |ids| && FirstOfKey(before, b, ids, k) && RowOfItem(b, ids, added, k, row, at)
  }

  ghost predicate HasNewRow<R>(before: seq<HistoryRow>, after: seq<HistoryRow>, b: Batch<R>, ids: seq<nat>,
                               added: seq<int>, k: nat, at: Time)
    requires WellFormed(b) && AreTasks(b, ids) && k < |ids| == |added|
  {
    exists j :: |before| <= j < |after| && RowOfItem(b, ids, added, k, after[j], at)
  }

  /** The new rows are exactly those of the messages that are the first of their query. */
  ghost predicate NewRows<R>(before: seq<HistoryRow>, after: seq<HistoryRow>, b: Batch<R>, ids: seq<nat>,
                             added: seq<int>, at: Time)
    requires WellFormed(b) && AreTasks(b, ids) && |ids| == |added|
  {
    before <= after &&
    (forall j :: |before| <= j < |after| ==> HasItem(before, b, ids, added, after[j], at)) &&
    forall k :: 0 <= k < |ids| && FirstOfKey(before, b, ids, k) ==> HasNewRow(before, after, b, ids, added, k, at)
  }

  lemma ItemOfRest<R>(before: seq<HistoryRow>, b: Batch<R>, ids: seq<nat>, k: nat)
    requires AreTasks(b, ids) && k < |ids| - 1
    ensures FirstOfKey(before, b, ids[..|ids| - 1], k) <==> FirstOfKey(before, b, ids, k)
  {
  }

  lemma {:induction false} RowsOfItems<R>(t: Tables, b: Batch<R>, ids: seq<nat>, at: Time, resweepDays: nat)
    requires WellFormed(b) && AreTasks(b, ids)
    ensures NewRows(t.snap.history, CompleteAll(t, b, ids, at, resweepDays).snap.history, b, ids,
      Added(t, b, ids, at, resweepDays), at)
    decreases |ids|
  {
    if ids != [] {
      var rest, n := ids[..|ids| - 1], |ids| - 1;
      RowsOfItems(t, b, rest, at, resweepDays);
      CompletedHaveRows(t, b, rest, at, resweepDays);
      var mid, end := CompleteAll(t, b, rest, at, resweepDays), CompleteAll(t, b, ids, at, resweepDays);
      ItemWrites(mid, b, ids[n], at, resweepDays);
      NewKeyIsFirst(t.snap.history, mid.snap.history, b, ids);
      var added := Added(t, b, ids, at, resweepDays);
      assert added[..n] == Added(t, b, rest, at, resweepDays);
      OneMoreItem(t.snap.history, mid.snap, end.snap, b, ids, added, at, resweepDays);
    }
  }

  lemma OneMoreItem<R>(before: seq<HistoryRow>, mid: Snap, end: Snap, b: Batch<R>, ids: seq<nat>, added: seq<int>,
                       at: Time, resweepDays: nat)
    requires WellFormed(b) && AreTasks(b, ids) && |ids| == |added| > 0 && added[|ids| - 1] >= 0
    requires NewRows(before, mid.history, b, ids[..|ids| - 1], added[..|ids| - 1], at)
    requires var task := b.messages[ids[|ids| - 1]].value;
      Written(mid, end, task, added[|ids| - 1], Fails(b, ids[|ids| - 1]), at, resweepDays) &&
      (FirstOfKey(before, b, ids, |ids| - 1) <==>
        !exists row :: row in mid.history && row.dispatchId == task.dispatchId && row.querySeq == task.querySeq)
    ensures NewRows(before, end.history, b, ids, added, at)
  {
    assert LastRow(before, mid.history, end.history, b, ids, added, at);
    forall j | |before| <= j < |mid.history| ensures HasItem(before, b, ids, added, mid.history[j], at) {
      RowKeepsItem(before, b, ids, added, mid.history[j], at);
    }
    forall k | 0 <= k < |ids| - 1 && FirstOfKey(before, b, ids, k)
      ensures HasNewRow(before, end.history, b, ids, added, k, at)
    {
      ItemOfRest(before, b, ids, k);
      ItemKeepsRow(before, mid.history, end.history, b, ids, added, k, at);
    }
    LastIsNew(before, mid.history, end.history, b, ids, added, at);
  }

  /** The last message added its row, or no row if it was not the first of its query. */
  ghost predicate LastRow<R>(before: seq<HistoryRow>, mid: seq<HistoryRow>, end: seq<HistoryRow>, b: Batch<R>,
                             ids: seq<nat>, added: seq<int>, at: Time)
    requires WellFormed(b) && AreTasks(b, ids) && |ids| == |added| > 0
  {
    var n := |ids| - 1;
    if FirstOfKey(before, b, ids, n)
    then |end| == |mid| + 1 && mid <= end && RowOfItem(b, ids, added, n, end[|mid|], at)
    else end == mid
  }

  lemma RowKeepsItem<R>(before: seq<HistoryRow>, b: Batch<R>, ids: seq<nat>, added: seq<int>, row: HistoryRow, at: Time)
    requires WellFormed(b) && AreTasks(b, ids) && |ids| == |added| > 0
    requires HasItem(before, b, ids[..|ids| - 1], added[..|ids| - 1], row, at)
    ensures HasItem(before, b, ids, added, row, at)
  {
    var rest, first := ids[..|ids| - 1], added[..|ids| - 1];
    var k :| 0 <= k < |rest| && FirstOfKey(before, b, rest, k) && RowOfItem(b, rest, first, k, row, at);
    ItemOfRest(before, b, ids, k);
    assert RowOfItem(b, ids, added, k, row, at);
  }

  lemma ItemKeepsRow<R>(before: seq<HistoryRow>, mid: seq<HistoryRow>, end: seq<HistoryRow>, b: Batch<R>,
                        ids: seq<nat>, added: seq<int>, k: nat, at: Time)
    requires WellFormed(b) && AreTasks(b, ids) && |ids| == |added| > 0 && k < |ids| - 1 && mid <= end
    requires HasNewRow(before, mid, b, ids[..|ids| - 1], added[..|ids| - 1], k, at)
    ensures HasNewRow(before, end, b, ids, added, k, at)
  {
    var rest, first := ids[..|ids| - 1], added[..|ids| - 1];
    var j :| |before| <= j < |mid| && RowOfItem(b, rest, first, k, mid[j], at);
    assert RowOfItem(b, ids, added, k, end[j], at);
  }

  lemma LastIsNew<R>(before: seq<HistoryRow>, mid: seq<HistoryRow>, end: seq<HistoryRow>, b: Batch<R>,
                     ids: seq<nat>, added: seq<int>, at: Time)
    requires WellFormed(b) && AreTasks(b, ids) && |ids| == |added| > 0 && before <= mid
    requires LastRow(before, mid, end, b, ids, added, at)
    ensures FirstOfKey(before, b, ids, |ids| - 1) ==>
      HasNewRow(before, end, b, ids, added, |ids| - 1, at) && HasItem(before, b, ids, added, end[|mid|], at)
  {
    if FirstOfKey(before, b, ids, |ids| - 1) {
      assert RowOfItem(b, ids, added, |ids| - 1, end[|mid|], at);
    }
  }

  /** The last message's key is new to the table it meets exactly when it is the first of its query. */
  lemma NewKeyIsFirst<R>(before: seq<HistoryRow>, mid: seq<HistoryRow>, b: Batch<R>, ids: seq<nat>)
    requires AreTasks(b, ids) && ids != [] && before <= mid
    requires var rest := ids[..|ids| - 1];
      (forall k :: 0 <= k < |rest| ==>
        HasKey(mid, b.messages[rest[k]].value.dispatchId, b.messages[rest[k]].value.querySeq)) &&
      forall j :: |before| <= j < |mid| ==> RowFrom(b, rest, mid[j])
    ensures var task := b.messages[ids[|ids| - 1]].value;
      FirstOfKey(before, b, ids, |ids| - 1) <==>
        !exists row :: row in mid && row.dispatchId == task.dispatchId && row.querySeq == task.querySeq
  {
    var rest, n, task := ids[..|ids| - 1], |ids| - 1, b.messages[ids[|ids| - 1]].value;
    if row :| row in mid && row.dispatchId == task.dispatchId && row.querySeq == task.querySeq {
      var j :| 0 <= j < |mid| && mid[j] == row;
      if j < |before| {
        assert before[j] in before;
      } else {
        var k :| 0 <= k < |rest| && IsKey(mid[j], b.messages[rest[k]].value.dispatchId,
          b.messages[rest[k]].value.querySeq);
        assert SameKey(b.messages[ids[k]].value, task);
      }
    } else {
      forall row | row in before ensures !(row.dispatchId == task.dispatchId && row.querySeq == task.querySeq) {
        var j :| 0 <= j < |before| && before[j] == row;
        assert mid[j] in mid;
      }
      forall m | 0 <= m < n ensures !SameKey(b.messages[ids[m]].value, task) {
        var j :| 0 <= j < |mid| && IsKey(mid[j], b.messages[rest[m]].value.dispatchId,
          b.messages[rest[m]].value.querySeq);
        assert mid[j] in mid;
      }
    }
  }

  // ---- the phases of one batch

  predicate Ascending(ids: seq<nat>) { forall i, j :: 0 <= i < j < |ids| ==> ids[i] < ids[j] }

  ghost predicate Listed<R>(items: seq<Item<R>>) {
    forall i, j :: 0 <= i < j < |items| ==> items[i].id < items[j].id
  }

  /** The worker of every open message stands behind the gate, and no other worker is there. */
  ghost predicate AllGated<R>(workers: map<nat, Worker>, b: Batch<R>, ids: seq<nat>) {
    (forall r :: r in workers <==> r in ids) &&
    forall r :: r in workers ==> r < |b.messages| && IsTask(b.messages[r]) && workers[r] == Gated(b.messages[r].value)
  }

  method GateOne<R>(w: World, b: Batch<R>, i: nat) returns (passed: bool)
    requires w.Valid() && i !in w.workers && i < |b.messages| && (IsTask(b.messages[i]) ==>
      b.messages[i].value in w.sent)
    modifies w`workers, w`orchestrators, w`stamps, w`inCounter, w`increments, w`log
    ensures w.Valid() && passed == Gates(old(w.View()), b, i)
    ensures w.View() == old(w.View()).(workers := w.workers)
    ensures w.workers == if passed then old(w.workers)[i := Gated(b.messages[i].value)] else old(w.workers)
  {
    passed := false;
    if IsTask(b.messages[i]) { passed := GateSweep(w, i, b.messages[i].value); }
  }

  /** Parse and gate every message; the others are deleted unworked. */
  method GateAll<R>(w: World, b: Batch<R>) returns (open: seq<nat>, deleted: set<nat>)
    requires w.Valid() && w.workers == map[]
    requires forall i :: 0 <= i < |b.messages| && IsTask(b.messages[i]) ==> b.messages[i].value in w.sent
    modifies w`workers, w`orchestrators, w`stamps, w`inCounter, w`increments, w`log
    ensures w.Valid() && w.View() == old(w.View()).(workers := w.workers)
    ensures Ascending(open) && (forall i: nat :: i in open <==>
      Gates(old(w.View()), b, i)) && AllGated(w.workers, b, open)
    ensures forall i: nat :: i in deleted <==> i < |b.messages| && !Gates(old(w.View()), b, i)
  {
    open, deleted := [], {};
    ghost var s := w.View();
    for i := 0 to |b.messages|
      invariant w.Valid() && w.View() == s.(workers := w.workers) && GatedUpTo(w.workers, s, b, i, open, deleted)
    {
      ghost var workers := w.workers;
      var passed := GateOne(w, b, i);
      GateNext(workers, s, b, i, open, deleted);
      if passed { open := open + [i]; } else { deleted := deleted + {i}; }
    }
  }

  ghost predicate GatedUpTo<R>(workers: map<nat, Worker>, s: State, b: Batch<R>, n: nat, open: seq<nat>,
                               deleted: set<nat>) {
    Ascending(open) && AllGated(workers, b, open) &&
    (forall i: nat :: i in open <==> i < n && Gates(s, b, i)) &&
    (forall i: nat :: i in deleted <==> i < n && !Gates(s, b, i))
  }

  lemma GateNext<R>(workers: map<nat, Worker>, s: State, b: Batch<R>, i: nat, open: seq<nat>, deleted: set<nat>)
    requires GatedUpTo(workers, s, b, i, open, deleted) && i < |b.messages|
    ensures i !in workers
    ensures Gates(s, b, i) ==> GatedUpTo(workers[i := Gated(b.messages[i].value)], s, b, i + 1, open + [i], deleted)
    ensures !Gates(s, b, i) ==> GatedUpTo(workers, s, b, i + 1, open, deleted + {i})
  {
    forall j | 0 <= j < |open| ensures open[j] < i { assert open[j] in open; }
  }

  /** Each item holds what its message's search found. */
  ghost predicate CarriesResults<R>(b: Batch<R>, items: seq<Item<R>>) {
    forall k :: 0 <= k < |items| ==> items[k].id < |b.search| && b.search[items[k].id] == Found(items[k].results)
  }

  /** Search serially: a rate-limited message is left untouched, a failed search is an errored item. */
  method SearchAll<R>(b: Batch<R>, open: seq<nat>) returns (found: seq<Item<R>>, failed: seq<nat>)
    requires WellFormed(b) && Ascending(open) && forall k :: 0 <= k < |open| ==> open[k] < |b.messages|
    ensures Listed(found) && Ascending(failed)
    ensures forall i: nat :: InChunk(found, i) <==> i in open && i < |b.search| && b.search[i].Found?
    ensures forall i: nat :: i in failed <==> i in open && i < |b.search| && b.search[i].Failed?
    ensures CarriesResults(b, found)
  {
    found, failed := [], [];
    for k := 0 to |open|
      invariant Listed(found) && Ascending(failed) && CarriesResults(b, found)
      invariant forall j, l :: 0 <= j < |failed| && k <= l < |open| ==> failed[j] < open[l]
      invariant forall j, l :: 0 <= j < |found| && k <= l < |open| ==> found[j].id < open[l]
      invariant forall i: nat :: InChunk(found, i) <==> i in open[..k] && i < |b.search| && b.search[i].Found?
      invariant forall i: nat :: i in failed <==> i in open[..k] && i < |b.search| && b.search[i].Failed?
    {
      var i := open[k];
      assert open[..k + 1] == open[..k] + [i];
      match b.search[i]
      case RateLimited =>
      case Failed => failed := failed + [i];
      case Found(results) => found := Add(found, i, results);
    }
    assert open[..|open|] == open;
  }

  method Add<R>(found: seq<Item<R>>, i: nat, results: seq<R>) returns (more: seq<Item<R>>)
    requires Listed(found) && forall k :: 0 <= k < |found| ==> found[k].id < i
    ensures Listed(more) && more == found + [Item(i, results)] && forall x: nat :: InChunk(more, x) <==>
      InChunk(found, x) || x == i
  {
    more := found + [Item(i, results)];
    assert more[|found|].id == i;
    forall x | InChunk(found, x) ensures InChunk(more, x) {
      var k :| 0 <= k < |found| && found[k].id == x;
      assert more[k].id == x;
    }
  }

  // ---- triage

  /** The ids handled by the first `c` triage calls come from the items they hold. */
  ghost predicate FromPrefix<R>(found: seq<Item<R>>, n: nat, ids: seq<nat>)
    requires n <= |found|
  {
    forall k :: 0 <= k < |ids| ==> InChunk(found[..n], ids[k])
  }

  ghost predicate TriagedUpTo<R>(chunks: seq<seq<Item<R>>>, refused: set<nat>, c: nat, i: nat)
    requires c <= |chunks|
  {
    exists d :: 0 <= d < c && d !in refused && InChunk(chunks[d], i)
  }

  function IdsOf<R>(chunk: seq<Item<R>>): (ids: seq<nat>)
    ensures |ids| == |chunk| && forall k :: 0 <= k < |ids| ==> ids[k] == chunk[k].id
  {
    if chunk == [] then [] else IdsOf(chunk[..|chunk| - 1]) + [chunk[|chunk| - 1].id]
  }

  /** A later slice of a listed sequence continues an ascending list drawn from an earlier one. */
  lemma SliceContinues<R>(found: seq<Item<R>>, lo: nat, hi: nat, ids: seq<nat>)
    requires Listed(found) && lo <= hi <= |found| && Ascending(ids) && FromPrefix(found, lo, ids)
    ensures Ascending(ids + IdsOf(found[lo..hi])) && FromPrefix(found, hi, ids + IdsOf(found[lo..hi]))
  {
    var slice, more := IdsOf(found[lo..hi]), ids + IdsOf(found[lo..hi]);
    forall k | 0 <= k < |more| ensures InChunk(found[..hi], more[k]) {
      if k < |ids| {
        var j :| 0 <= j < lo && found[..lo][j].id == ids[k];
        assert found[..hi][j].id == more[k];
      } else {
        assert found[..hi][lo + k - |ids|].id == more[k];
      }
    }
    forall i, j | 0 <= i < j < |more| ensures more[i] < more[j] {
      if i < |ids| <= j {
        var k :| 0 <= k < lo && found[..lo][k].id == ids[i];
        assert found[k].id < found[lo + j - |ids|].id;
      } else if |ids| <= i {
        assert found[lo + i - |ids|].id < found[lo + j - |ids|].id;
      }
    }
  }

  /** One triage call per chunk; a failed call leaves its messages alone. */
  method TriageAll<R>(found: seq<Item<R>>, cap: int, refused: set<nat>)
      returns (triaged: seq<nat>, chunks: seq<seq<Item<R>>>)
    requires Listed(found)
    ensures Flatten(chunks) == found && TriageBatching.Valid(chunks, cap) && Greedy(chunks, cap)
    ensures Ascending(triaged) && forall i: nat :: i in triaged <==> Triaged(chunks, refused, i)
    ensures forall i: nat :: i in triaged ==> InChunk(found, i)
  {
    chunks := TriageChunks(found, cap);
    triaged := AskAll(found, chunks, refused);
  }

  method AskAll<R>(found: seq<Item<R>>, chunks: seq<seq<Item<R>>>, refused: set<nat>) returns (triaged: seq<nat>)
    requires Listed(found) && Flatten(chunks) == found
    ensures Ascending(triaged) && forall i: nat :: i in triaged <==> Triaged(chunks, refused, i)
    ensures forall i: nat :: i in triaged ==> InChunk(found, i)
  {
    triaged := [];
    assert Held(chunks, 0) == 0;
    for c := 0 to |chunks|
      invariant Held(chunks, c) <= |found| && Ascending(triaged) && FromPrefix(found, Held(chunks, c), triaged)
      invariant forall i: nat :: i in triaged <==> TriagedUpTo(chunks, refused, c, i)
    {
      NextChunk(found, chunks, refused, c, triaged);
      assert c in refused ==> triaged + Answered(chunks[c], refused, c) == triaged;
      if c !in refused { triaged := triaged + IdsOf(chunks[c]); }
    }
    FromWhole(found, Held(chunks, |chunks|), triaged);
  }

  function Answered<R>(chunk: seq<Item<R>>, refused: set<nat>,
                       c: nat): seq<nat> { if c in refused then [] else IdsOf(chunk) }

  lemma NextChunk<R>(found: seq<Item<R>>, chunks: seq<seq<Item<R>>>, refused: set<nat>, c: nat, ids: seq<nat>)
    requires Listed(found) && Flatten(chunks) == found && c < |chunks| && Held(chunks, c) <= |found|
    requires Ascending(ids) && FromPrefix(found, Held(chunks, c), ids) && forall i: nat :: i in ids <==>
      TriagedUpTo(chunks, refused, c, i)
    ensures var more := ids + Answered(chunks[c], refused, c);
      Held(chunks, c + 1) <= |found| && Ascending(more) && FromPrefix(found, Held(chunks, c + 1), more) &&
      forall i: nat :: i in more <==> TriagedUpTo(chunks, refused, c + 1, i)
  {
    ChunkIsSlice(chunks, c);
    SliceContinues(found, Held(chunks, c), Held(chunks, c + 1), ids);
    MembersGrow(chunks, refused, c, ids);
    var more := ids + Answered(chunks[c], refused, c);
    if c in refused {
      assert more == ids;
      forall k | 0 <= k < |ids| ensures InChunk(found[..Held(chunks, c + 1)], ids[k]) {
        assert (ids + IdsOf(chunks[c]))[k] == ids[k];
      }
    }
  }

  lemma MembersGrow<R>(chunks: seq<seq<Item<R>>>, refused: set<nat>, c: nat, ids: seq<nat>)
    requires c < |chunks| && forall i: nat :: i in ids <==> TriagedUpTo(chunks, refused, c, i)
    ensures forall i: nat :: i in ids + Answered(chunks[c], refused, c) <==> TriagedUpTo(chunks, refused, c + 1, i)
  {
    forall i: nat ensures i in IdsOf(chunks[c]) <==> InChunk(chunks[c], i) {
      if InChunk(chunks[c], i) {
        var k :| 0 <= k < |chunks[c]| && chunks[c][k].id == i;
        assert IdsOf(chunks[c])[k] == i;
      }
    }
  }

  lemma FromWhole<R>(found: seq<Item<R>>, n: nat, ids: seq<nat>)
    requires n <= |found| && FromPrefix(found, n, ids)
    ensures forall i: nat :: i in ids ==> InChunk(found, i)
  {
    forall i: nat | i in ids ensures InChunk(found, i) {
      var k :| 0 <= k < |ids| && ids[k] == i;
      var j :| 0 <= j < n && found[..n][j].id == ids[k];
      assert found[j].id == i;
    }
  }

  // ---- the batch

  ghost function TablesOf(w: World, st: ArtifactStore.Store): Tables
    reads w, st
  {
    Tables(SnapOf(w), st.View())
  }

  /** Extract, stage, write back: one completed message. */
  method CompleteOne<R>(w: World, st: ArtifactStore.Store, b: Batch<R>, i: nat)
    requires w.Valid() && st.Valid() && WellFormed(b) && i < |b.messages| && IsTask(b.messages[i])
    requires i in w.workers && w.workers[i] == Gated(b.messages[i].value)
    modifies w`targets, w`history, w`counters, w`workers, w`orchestrators, w`stamps, w`inCounter, w`increments, w`log
    modifies st`artifacts, st`nextId, st`inserted, st`keys, st`nextDispatch, st`published
    ensures w.Valid() && st.Valid() && w.workers == old(w.workers) - {i}
    ensures TablesOf(w, st) == CompleteItem(old(TablesOf(w, st)), b, i, w.now, w.resweepDays)
    ensures ItemWritten(old(TablesOf(w, st)), TablesOf(w, st), b, i, w.now, w.resweepDays)
  {
    ItemWrites(TablesOf(w, st), b, i, w.now, w.resweepDays);
    var task := b.messages[i].value;
    var staged, errored := 0, b.search[i].Failed?;
    if !errored {
      staged := ArtifactStore.StageAll(st, task.corpus, b.pages[i].urls, w.now);
      errored := b.pages[i].raised;
    }
    WriteBack(w, i, task, staged, errored);
  }

  predicate Distinct(ids: seq<nat>) { forall i, j :: 0 <= i < j < |ids| ==> ids[i] != ids[j] }

  /** The messages from position `n` on still have their workers behind the gate. */
  ghost predicate StillGated<R>(workers: map<nat, Worker>, b: Batch<R>, ids: seq<nat>, n: nat) {
    forall k :: n <= k < |ids| ==>
      ids[k] < |b.messages| && IsTask(b.messages[ids[k]]) && ids[k] in workers &&
        workers[ids[k]] == Gated(b.messages[ids[k]].value)
  }

  lemma OthersStayGated<R>(workers: map<nat, Worker>, b: Batch<R>, ids: seq<nat>, n: nat)
    requires Distinct(ids) && n < |ids| && StillGated(workers, b, ids, n)
    ensures StillGated(workers - {ids[n]}, b, ids, n + 1)
  {
  }

  lemma CompleteNext<R>(t: Tables, b: Batch<R>, ids: seq<nat>, n: nat, at: Time, resweepDays: nat)
    requires WellFormed(b) && AreTasks(b, ids) && n < |ids|
    ensures CompleteAll(t, b, ids[..n + 1], at, resweepDays) ==
      CompleteItem(CompleteAll(t, b, ids[..n], at, resweepDays), b, ids[n], at, resweepDays)
  {
    assert ids[..n + 1][..n] == ids[..n] && ids[..n + 1][n] == ids[n];
  }

  method CompleteNth<R>(w: World, st: ArtifactStore.Store, b: Batch<R>, ids: seq<nat>, n: nat)
    requires w.Valid() && st.Valid() && WellFormed(b) && Distinct(ids) && AreTasks(b, ids)
    requires n < |ids| && StillGated(w.workers, b, ids, n)
    modifies w`targets, w`history, w`counters, w`workers, w`orchestrators, w`stamps, w`inCounter, w`increments, w`log
    modifies st`artifacts, st`nextId, st`inserted, st`keys, st`nextDispatch, st`published
    ensures w.Valid() && st.Valid() && StillGated(w.workers, b, ids, n + 1)
    ensures TablesOf(w, st) == CompleteItem(old(TablesOf(w, st)), b, ids[n], w.now, w.resweepDays)
  {
    OthersStayGated(w.workers, b, ids, n);
    CompleteOne(w, st, b, ids[n]);
  }

  method CompleteEach<R>(w: World, st: ArtifactStore.Store, b: Batch<R>, ids: seq<nat>)
    requires w.Valid() && st.Valid() && WellFormed(b) && Distinct(ids) && AreTasks(b, ids) &&
      StillGated(w.workers, b, ids, 0)
    modifies w`targets, w`history, w`counters, w`workers, w`orchestrators, w`stamps, w`inCounter, w`increments, w`log
    modifies st`artifacts, st`nextId, st`inserted, st`keys, st`nextDispatch, st`published
    ensures w.Valid() && st.Valid()
    ensures TablesOf(w, st) == CompleteAll(old(TablesOf(w, st)), b, ids, w.now, w.resweepDays)
  {
    ghost var before := TablesOf(w, st);
    for n := 0 to |ids|
      invariant w.Valid() && st.Valid() && StillGated(w.workers, b, ids, n)
      invariant TablesOf(w, st) == CompleteAll(before, b, ids[..n], w.now, w.resweepDays)
    {
      CompleteNext(before, b, ids, n, w.now, w.resweepDays);
      CompleteNth(w, st, b, ids, n);
    }
    assert ids[..|ids|] == ids;
  }

  /** The deferred messages' workers end without another effect. */
  ghost method LeaveRest(w: World)
    requires w.Valid()
    modifies w`workers, w`orchestrators, w`stamps, w`inCounter, w`increments, w`log
    ensures w.Valid() && w.View() == old(w.View()).(workers := map[])
  {
    while w.workers != map[]
      invariant w.Valid() && w.View() == old(w.View()).(workers := w.workers)
      decreases |w.workers|
    {
      var r :| r in w.workers;
      assert |w.workers - {r}| < |w.workers|;
      w.Follow(Apply(w.View(), Crash(r)));
    }
  }

  /** The completed messages: the triaged ones and those whose search failed. */
  lemma CompletedAre<R>(s: State, b: Batch<R>, open: seq<nat>, found: seq<Item<R>>, failed: seq<nat>, triaged: seq<nat>,
                        chunks: seq<seq<Item<R>>>)
    requires WellFormed(b) && Ascending(failed) && Ascending(triaged)
    requires forall i: nat :: i in open <==> Gates(s, b, i)
    requires forall i: nat :: InChunk(found, i) <==> i in open && i < |b.search| && b.search[i].Found?
    requires forall i: nat :: i in failed <==> i in open && i < |b.search| && b.search[i].Failed?
    requires forall i: nat :: i in triaged <==> Triaged(chunks, b.refused, i)
    requires forall i: nat :: i in triaged ==> InChunk(found, i)
    ensures Distinct(triaged + failed)
    ensures forall i: nat :: i in triaged + failed <==> Gates(s, b, i) && !Deferred(s, b, chunks, i)
  {
    var ids := triaged + failed;
    forall i, j | 0 <= i < j < |ids| ensures ids[i] != ids[j] {
      if i < |triaged| <= j { assert triaged[i] in triaged && failed[j - |triaged|] in failed; }
    }
  }

  /** What completing the messages `completed` did, and which messages the batch left in the queue. */
  ghost predicate Accounted<R>(s: State, b: Batch<R>, chunks: seq<seq<Item<R>>>, completed: seq<nat>, deleted: set<nat>)
    requires WellFormed(b)
  {
    Distinct(completed) && AreTasks(b, completed) &&
    (forall i: nat :: i in completed <==> Gates(s, b, i) && !Deferred(s, b, chunks, i)) &&
    (forall i: nat :: i in deleted <==> i < |b.messages| && !Deferred(s, b, chunks, i))
  }

  /** The triage calls together hold the found items of the gated messages, in order, each with its results. */
  ghost predicate AsksAll<R>(s: State, b: Batch<R>, items: seq<Item<R>>)
    requires WellFormed(b)
  {
    Listed(items) && CarriesResults(b, items) &&
    forall i: nat :: InChunk(items, i) <==> Gates(s, b, i) && b.search[i].Found?
  }

  // ---- the same, message by message

  /** The message is a sweep task whose corpus runs, whose target carries its dispatch, and whose query has no row. */
  ghost predicate Worked<R>(s: State, b: Batch<R>, i: nat) {
    i < |b.messages| && b.messages[i].Some? &&
    var task := b.messages[i].value;
    task.source == Serper && task.corpus in s.switches && s.switches[task.corpus] == Running &&
    task.target in s.targets && s.targets[task.target].dispatchId == Some(task.dispatchId) &&
    !exists row :: row in s.history && row.dispatchId == task.dispatchId && row.querySeq == task.querySeq &&
      row.corpus == task.corpus && row.jurisdiction == task.jurisdiction
  }

  /** Triage answered for the message: some call that did not fail held its item. */
  ghost predicate AnsweredFor<R>(chunks: seq<seq<Item<R>>>, refused: set<nat>, i: nat) {
    exists c, k :: 0 <= c < |chunks| && c !in refused && 0 <= k < |chunks[c]| && chunks[c][k].id == i
  }

  /** Every worked message with results is asked about, in order and with its results; a message is completed exactly
      when it is worked and its search failed or triage answered for it; one is left in the queue exactly when it is
      worked and not completed. */
  ghost predicate BatchWorked<R>(s: State, b: Batch<R>, chunks: seq<seq<Item<R>>>, completed: seq<nat>,
                                 deleted: set<nat>)
    requires WellFormed(b)
  {
    var items := Flatten(chunks);
    (forall k, l :: 0 <= k < l < |items| ==> items[k].id < items[l].id) &&
    (forall k :: 0 <= k < |items| ==> items[k].id < |b.search| && b.search[items[k].id] == Found(items[k].results)) &&
    (forall i: nat :: (exists k :: 0 <= k < |items| && items[k].id == i) <==> Worked(s, b, i) && b.search[i].Found?) &&
    (forall i: nat :: i in completed <==>
      Worked(s, b, i) && (b.search[i].Failed? || (b.search[i].Found? && AnsweredFor(chunks, b.refused, i)))) &&
    forall i: nat :: i in deleted <==> i < |b.messages| && (!Worked(s, b, i) || i in completed)
  }

  lemma GatesAreWorked<R>(s: State, b: Batch<R>, i: nat)
    ensures Gates(s, b, i) <==> Worked(s, b, i)
  {
    if i < |b.messages| && IsTask(b.messages[i]) {
      var task := b.messages[i].value;
      RowIsThere(s.history, task);
    }
  }

  lemma RowIsThere(history: seq<HistoryRow>, task: Task)
    ensures HasRow(history, task.corpus, task.jurisdiction, task.dispatchId, task.querySeq) <==>
      exists row :: row in history && row.dispatchId == task.dispatchId && row.querySeq == task.querySeq &&
        row.corpus == task.corpus && row.jurisdiction == task.jurisdiction
  {
    forall row | row in history && IsKey(row, task.dispatchId, task.querySeq)
      ensures exists i :: 0 <= i < |history| && history[i] == row && IsKey(history[i], task.dispatchId, task.querySeq)
    {
      var i :| 0 <= i < |history| && history[i] == row;
    }
  }

  lemma AnsweredIsTriaged<R>(chunks: seq<seq<Item<R>>>, refused: set<nat>, i: nat)
    ensures AnsweredFor(chunks, refused, i) <==> Triaged(chunks, refused, i)
  {
  }

  lemma AccountedIsWorked<R>(s: State, b: Batch<R>, chunks: seq<seq<Item<R>>>, completed: seq<nat>, deleted: set<nat>)
    requires WellFormed(b) && Accounted(s, b, chunks, completed, deleted) && AsksAll(s, b, Flatten(chunks))
    ensures BatchWorked(s, b, chunks, completed, deleted)
  {
    forall i: nat
      ensures Gates(s, b, i) <==> Worked(s, b, i)
      ensures AnsweredFor(chunks, b.refused, i) <==> Triaged(chunks, b.refused, i)
    {
      GatesAreWorked(s, b, i);
      AnsweredIsTriaged(chunks, b.refused, i);
    }
    forall i: nat ensures InChunk(Flatten(chunks), i) <==>
      exists k :: 0 <= k < |Flatten(chunks)| && Flatten(chunks)[k].id == i {}
  }

  /** Gate, search and triage: `ids` are the messages to complete, `unworked` those the gate turned away. */
  method Plan<R>(w: World, b: Batch<R>, cap: int) returns (ids: seq<nat>, unworked: set<nat>, chunks: seq<seq<Item<R>>>)
    requires w.Valid() && w.workers == map[] && WellFormed(b)
    requires forall i :: 0 <= i < |b.messages| && IsTask(b.messages[i]) ==> b.messages[i].value in w.sent
    modifies w`workers, w`orchestrators, w`stamps, w`inCounter, w`increments, w`log
    ensures w.Valid() && w.View() == old(w.View()).(workers := w.workers) && AreTasks(b, ids) &&
      StillGated(w.workers, b, ids, 0)
    ensures TriageBatching.Valid(chunks, cap) && Greedy(chunks, cap) && Distinct(ids)
    ensures forall i: nat :: i in ids <==> Gates(old(w.View()), b, i) && !Deferred(old(w.View()), b, chunks, i)
    ensures forall i: nat :: i in unworked <==> i < |b.messages| && !Gates(old(w.View()), b, i)
    ensures AsksAll(old(w.View()), b, Flatten(chunks))
  {
    var open;
    ghost var s := w.View();
    open, unworked := GateAll(w, b);
    forall k | 0 <= k < |open| ensures open[k] < |b.messages| { assert open[k] in open; }
    var found, failed := SearchAll(b, open);
    var triaged;
    triaged, chunks := TriageAll(found, cap, b.refused);
    CompletedAre(s, b, open, found, failed, triaged, chunks);
    ids := triaged + failed;
    AllStillGated(w.workers, s, b, open, ids);
  }

  lemma AllAccounted<R>(s: State, b: Batch<R>, chunks: seq<seq<Item<R>>>, ids: seq<nat>, unworked: set<nat>,
                        deleted: set<nat>)
    requires WellFormed(b) && Distinct(ids) && AreTasks(b, ids)
    requires forall i: nat :: i in ids <==> Gates(s, b, i) && !Deferred(s, b, chunks, i)
    requires forall i: nat :: i in unworked <==> i < |b.messages| && !Gates(s, b, i)
    requires forall i: nat :: i in deleted <==> i in unworked || i in ids
    ensures Accounted(s, b, chunks, ids, deleted)
  {
  }

  lemma DeletedHaveRows<R>(s: State, b: Batch<R>, chunks: seq<seq<Item<R>>>, ids: seq<nat>, deleted: set<nat>,
                           history: seq<HistoryRow>)
    requires WellFormed(b) && Accounted(s, b, chunks, ids, deleted)
    requires forall k :: 0 <= k < |ids| ==> HasKey(history, b.messages[ids[k]].value.dispatchId,
      b.messages[ids[k]].value.querySeq)
    ensures RowsForDeleted(s, b, deleted, history)
  {
    forall i: nat | i in deleted && Gates(s, b, i)
      ensures HasKey(history, b.messages[i].value.dispatchId, b.messages[i].value.querySeq)
    {
      assert i in ids;
      var k :| 0 <= k < |ids| && ids[k] == i;
    }
  }

  ghost predicate RowsForDeleted<R>(s: State, b: Batch<R>, deleted: set<nat>, history: seq<HistoryRow>) {
    forall i: nat :: i in deleted && Gates(s, b, i) ==>
      HasKey(history, b.messages[i].value.dispatchId, b.messages[i].value.querySeq)
  }

  /** A message stays undeleted exactly when its search was rate limited or its triage call failed; only completed
      messages changed any table; every gated message that was deleted has its row. */
  method HandleBatch<R>(w: World, st: ArtifactStore.Store, b: Batch<R>, cap: int)
    returns (deleted: set<nat>, ghost chunks: seq<seq<Item<R>>>, ghost completed: seq<nat>, ghost added: seq<int>)
    requires w.Valid() && st.Valid() && w.workers == map[] && WellFormed(b)
    requires forall i :: 0 <= i < |b.messages| && IsTask(b.messages[i]) ==> b.messages[i].value in w.sent
    modifies w`targets, w`history, w`counters, w`workers, w`orchestrators, w`stamps, w`inCounter, w`increments, w`log
    modifies st`artifacts, st`nextId, st`inserted, st`keys, st`nextDispatch, st`published
    ensures w.Valid() && st.Valid() && w.workers == map[]
    ensures TriageBatching.Valid(chunks, cap) && Greedy(chunks, cap)
    ensures Accounted(old(w.View()), b, chunks, completed, deleted)
    ensures BatchWorked(old(w.View()), b, chunks, completed, deleted)
    ensures TablesOf(w, st) == CompleteAll(old(TablesOf(w, st)), b, completed, w.now, w.resweepDays)
    ensures old(w.history) <= w.history && RowsForDeleted(old(w.View()), b, deleted, w.history)
    ensures |added| == |completed| && NewRows(old(w.history), w.history, b, completed, added, w.now)
    ensures Sum(added) == st.nextId - old(st.nextId) && forall k :: 0 <= k < |added| ==>
      added[k] >= 0 && (b.search[completed[k]].Failed? ==> added[k] == 0)
    ensures forall id: nat :: CountsMove(old(SnapOf(w)), SnapOf(w), id)
  {
    ghost var s, before := w.View(), TablesOf(w, st);
    var ids, unworked, calls := Plan(w, b, cap);
    chunks, completed := calls, ids;
    CompleteEach(w, st, b, ids);
    LeaveRest(w);
    deleted := unworked + (set k | k in ids);
    AllAccounted(s, b, calls, ids, unworked, deleted);
    AccountedIsWorked(s, b, calls, ids, deleted);
    CompletedHaveRows(before, b, ids, w.now, w.resweepDays);
    DeletedHaveRows(s, b, calls, ids, deleted, w.history);
    added := Added(before, b, ids, w.now, w.resweepDays);
    AddedIsAll(before, b, ids, w.now, w.resweepDays);
    RowsOfItems(before, b, ids, w.now, w.resweepDays);
    forall id: nat ensures CountsMove(before.snap, SnapOf(w), id) {
      CountersFollowRows(before, b, ids, w.now, w.resweepDays, id);
    }
  }

  lemma AllStillGated<R>(workers: map<nat, Worker>, s: State, b: Batch<R>, open: seq<nat>, ids: seq<nat>)
    requires AllGated(workers, b, open) && forall i: nat :: i in ids ==> i in open
    ensures StillGated(workers, b, ids, 0) && AreTasks(b, ids)
  {
    forall k | 0 <= k < |ids| ensures ids[k] in workers { assert ids[k] in ids; }
  }
}
