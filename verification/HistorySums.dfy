/** Sums over the history rows of one dispatch, and the result those rows call for. */
module HistorySums {
  import opened HarvestTables

  function One(row: HistoryRow): nat { 1 }
  function Staged(row: HistoryRow): nat { row.candidates }
  function Errored(row: HistoryRow): nat { if row.result.Error? then 1 else 0 }

  /** The sum of `f` over the rows of dispatch `id` whose query is in `queries`. */
  ghost function SumOver(history: seq<HistoryRow>, id: nat, queries: set<nat>, f: HistoryRow -> nat): nat {
    if history == [] then 0
    else
      var last := history[|history| - 1];
      SumOver(history[..|history| - 1], id, queries, f) +
      if last.dispatchId == id && last.querySeq in queries then f(last) else 0
  }

  /** The sum of `f` over every row of dispatch `id`. */
  ghost function Total(history: seq<HistoryRow>, id: nat, f: HistoryRow -> nat): nat {
    if history == [] then 0
    else
      var last := history[|history| - 1];
      Total(history[..|history| - 1], id, f) + if last.dispatchId == id then f(last) else 0
  }

  ghost predicate UniqueKeys(history: seq<HistoryRow>) {
    forall i, j :: 0 <= i < j < |history| ==>
      !(history[i].dispatchId == history[j].dispatchId && history[i].querySeq == history[j].querySeq)
  }

  /** Exactly one row per query 0..count-1, and no other row. */
  ghost predicate Complete(history: seq<HistoryRow>, id: nat, count: nat) {
    (forall q: nat :: q < count ==> HasKey(history, id, q)) &&
    (forall i :: 0 <= i < |history| && history[i].dispatchId == id ==> history[i].querySeq < count) &&
    (forall i, j :: 0 <= i < j < |history| && history[i].dispatchId == id && history[j].dispatchId == id ==>
      history[i].querySeq != history[j].querySeq)
  }

  /** What a dispatch's rows call for, whatever order they were written in. */
  ghost function ResultOf(history: seq<HistoryRow>, id: nat): SweepResult {
    if forall i :: 0 <= i < |history| && history[i].dispatchId == id ==>
         history[i].result.Error? && history[i].candidates == 0
    then Error
    else if exists i :: 0 <= i < |history| && history[i].dispatchId == id && history[i].candidates > 0
    then Candidates
    else NotFound
  }

  lemma AppendSum(history: seq<HistoryRow>, row: HistoryRow, id: nat, queries: set<nat>, f: HistoryRow -> nat)
    ensures SumOver(history + [row], id, queries, f) ==
            SumOver(history, id, queries, f) + if row.dispatchId == id && row.querySeq in queries then f(row) else 0
  {
    assert (history + [row])[..|history|] == history;
  }

  lemma {:induction false} AddQuery(history: seq<HistoryRow>, id: nat, queries: set<nat>, i: nat, f: HistoryRow -> nat)
    requires UniqueKeys(history) && i < |history|
    requires history[i].dispatchId == id && history[i].querySeq !in queries
    ensures SumOver(history, id, queries + {history[i].querySeq}, f) == SumOver(history, id, queries, f) + f(history[i])
  {
    var n := |history| - 1;
    if i < n {
      AddQuery(history[..n], id, queries, i, f);
    } else {
      SameSum(history[..n], id, queries, queries + {history[i].querySeq}, f);
    }
  }

  lemma {:induction false} SameSum(history: seq<HistoryRow>, id: nat, q1: set<nat>, q2: set<nat>, f: HistoryRow -> nat)
    requires forall i :: 0 <= i < |history| && history[i].dispatchId == id ==>
               (history[i].querySeq in q1 <==> history[i].querySeq in q2)
    ensures SumOver(history, id, q1, f) == SumOver(history, id, q2, f)
  {
    if history != [] {
      SameSum(history[..|history| - 1], id, q1, q2, f);
    }
  }

  lemma {:induction false} SumIsTotal(history: seq<HistoryRow>, id: nat, queries: set<nat>, f: HistoryRow -> nat)
    requires forall i :: 0 <= i < |history| && history[i].dispatchId == id ==> history[i].querySeq in queries
    ensures SumOver(history, id, queries, f) == Total(history, id, f)
  {
    if history != [] {
      SumIsTotal(history[..|history| - 1], id, queries, f);
    }
  }

  /** A total over error flags reaches the number of rows exactly when every row is an error. */
  lemma {:induction false} ErrorsReachCount(history: seq<HistoryRow>, id: nat)
    ensures Total(history, id, Errored) <= Total(history, id, One)
    ensures Total(history, id, Errored) == Total(history, id, One) <==>
            forall i :: 0 <= i < |history| && history[i].dispatchId == id ==> history[i].result.Error?
  {
    if history != [] {
      var n := |history| - 1;
      ErrorsReachCount(history[..n], id);
      assert forall i :: 0 <= i < n ==> history[..n][i] == history[i];
    }
  }

  lemma {:induction false} StagedZero(history: seq<HistoryRow>, id: nat)
    ensures Total(history, id, Staged) == 0 <==>
            forall i :: 0 <= i < |history| && history[i].dispatchId == id ==> history[i].candidates == 0
  {
    if history != [] {
      var n := |history| - 1;
      StagedZero(history[..n], id);
      assert forall i :: 0 <= i < n ==> history[..n][i] == history[i];
    }
  }

  /** The counter's arithmetic reads off exactly the result the rows call for. */
  lemma VerdictIsResult(history: seq<HistoryRow>, id: nat, c: Counts, count: nat)
    requires Total(history, id, One) == count
    requires c.candidates == Total(history, id, Staged) && c.errors == Total(history, id, Errored)
    ensures FanInVerdict(c, count) == ResultOf(history, id)
  {
    ErrorsReachCount(history, id);
    StagedZero(history, id);
  }

  /** The result does not depend on the order the rows were written in. */
  lemma ResultOrderFree(h1: seq<HistoryRow>, h2: seq<HistoryRow>, id: nat)
    requires forall row: HistoryRow :: row.dispatchId == id ==> (row in h1 <==> row in h2)
    ensures ResultOf(h1, id) == ResultOf(h2, id)
  {
    forall row: HistoryRow | row in h1 || row in h2
      ensures row.dispatchId == id ==> row in h1 && row in h2
    {
    }
    assert forall i :: 0 <= i < |h1| ==> h1[i] in h1;
    assert forall i :: 0 <= i < |h2| ==> h2[i] in h2;
  }

  lemma RangeSet(n: nat, s: set<nat>)
    requires forall q :: q in s ==> q < n
    ensures |s| <= n
    ensures |s| == n ==> forall q: nat :: q < n ==> q in s
  {
    if n == 0 {
      assert s == {};
    } else {
      RangeSet(n - 1, s - {n - 1});
      if n - 1 in s {
        assert |s| == |s - {n - 1}| + 1;
        assert forall q: nat :: q < n - 1 && q in s - {n - 1} ==> q in s;
      } else {
        assert s - {n - 1} == s;
      }
    }
  }
}
