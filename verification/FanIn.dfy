/** Fan-in: the worker whose increment completes a dispatch finalizes its target. */
module FanIn {
  import opened Options
  import opened HarvestTables
  import opened HarvestProtocol
  import opened HarvestWorld

  /** The counter of dispatch `id` moved by one query, starting from nothing if it was not there. */
  ghost predicate MovedBy(before: map<nat, Counts>, after: map<nat, Counts>, id: nat, staged: nat, errored: bool) {
    var was := if id in before then before[id] else Counts(0, 0, 0);
    after.Keys == before.Keys + {id} && (forall d :: d in before && d != id ==> after[d] == before[d]) &&
    after[id].done == was.done + 1 && after[id].candidates == was.candidates + staged &&
    after[id].errors == was.errors + if errored then 1 else 0
  }

  /** Row `k` ended its dispatch on the counts `c`: an error only if every query failed and nothing was staged, then due
      in a day; candidates if there are any, else not found, due at the resweep. */
  ghost predicate Ended(before: map<nat, Target>, after: map<nat, Target>, k: nat, c: Counts, count: nat, at: Time,
                        resweepDays: nat) {
    k in before && after.Keys == before.Keys && (forall j :: j in before && j != k ==> after[j] == before[j]) &&
    var t := after[k];
    t.dispatchId.None? && t.dispatchedAt.None? && t.queryCount.None? &&
    (t.lastResult == Some(Error) <==> c.errors >= count && c.candidates == 0) &&
    (t.lastResult == Some(Candidates) <==> c.candidates > 0) && t.lastResult.Some? &&
    t.nextDueAt == (if t.lastResult == Some(Error) then at + 86400 else at + 86400 * resweepDays) &&
    t == before[k].(lastResult := t.lastResult, nextDueAt := t.nextDueAt, dispatchedAt := None, dispatchId := None,
      queryCount := None)
  }

  lemma FinalizeEnds(before: map<nat, Target>, task: Task, c: Counts, at: Time, resweepDays: nat)
    requires Holds(before, task.target, task.dispatchId)
    ensures var result := FanInVerdict(c, task.queryCount);
      Ended(before, Finalize(before, task.target, task.dispatchId, result, FanInDue(result, at, resweepDays)),
        task.target, c, task.queryCount, at, resweepDays)
  {
  }

  /** The counter's increment, and the expiry set on it. */
  method Count(w: World, ghost r: nat, task: Task, staged: nat, errored: bool, ghost at: Time) returns (counts: Counts)
    requires w.Valid() && r in w.workers && w.workers[r] == Recorded(task, at, staged, errored)
    modifies w`counters, w`workers, w`orchestrators, w`stamps, w`inCounter, w`increments, w`log
    ensures w.Valid() && w.workers == old(w.workers)[r := Expiring(task, at, counts)]
    ensures w.counters == Bump(old(w.counters), task.dispatchId, staged, errored) &&
      counts == w.counters[task.dispatchId]
  {
    ghost var before := w.View();
    counts := w.Hincrby(task.dispatchId, staged, errored);
    w.Follow(Apply(before, Increment(r)));
    before := w.View();
    w.Follow(Apply(before, Expire(r)));
  }

  /** The aggregated counter's verdict: errors retry in a day, everything else waits for the resweep. */
  method Aggregate(counts: Counts, queryCount: nat, at: Time, resweepDays: nat) returns (result: SweepResult, due: Time)
    ensures result == FanInVerdict(counts, queryCount) && due == FanInDue(result, at, resweepDays)
    ensures result.Error? <==> counts.errors >= queryCount && counts.candidates == 0
    ensures result.Candidates? <==> counts.candidates > 0
    ensures due == if result.Error? then at + 86400 else at + 86400 * resweepDays
  {
    if counts.errors >= queryCount && counts.candidates == 0 {
      result, due := Error, at + DAY * ERROR_RETRY_DAYS;
    } else {
      result, due := if counts.candidates > 0 then Candidates else NotFound, at + DAY * resweepDays;
    }
  }

  /** Finalizes the target when this increment completed the dispatch. */
  method FinishDispatch(w: World, ghost r: nat, task: Task, at: Time, counts: Counts) returns (finalized: bool)
    requires w.Valid() && r in w.workers && w.workers[r] == Expiring(task, at, counts)
    modifies w`targets, w`workers, w`orchestrators, w`stamps, w`inCounter, w`increments, w`log
    ensures w.Valid() && w.workers == old(w.workers)[r := Deleting(task)]
    ensures var result := FanInVerdict(counts, task.queryCount);
      finalized == (counts.done == task.queryCount && Holds(old(w.targets), task.target, task.dispatchId)) &&
      w.targets == (if counts.done != task.queryCount then old(w.targets)
                    else Finalize(old(w.targets), task.target, task.dispatchId, result,
                      FanInDue(result, at, w.resweepDays)))
  {
    ghost var before := w.View();
    finalized := false;
    if counts.done == task.queryCount {
      var result, due := Aggregate(counts, task.queryCount, at, w.resweepDays);
      finalized := w.FinalizeTarget(task.target, task.dispatchId, result, due);
    }
    assert Enabled(before, HarvestProtocol.FanIn(r)) && Apply(before, HarvestProtocol.FanIn(r)) == DoFanIn(before, r);
    w.Follow(DoFanIn(before, r));
  }

  /** Counts one finished query, and finalizes the target when the count is full. */
  method RecordQueryDone(w: World, ghost r: nat, task: Task, staged: nat, errored: bool, at: Time)
      returns (finalized: bool)
    requires w.Valid() && r in w.workers && w.workers[r] == Recorded(task, at, staged, errored)
    modifies w`targets, w`counters, w`workers, w`orchestrators, w`stamps, w`inCounter, w`increments, w`log
    ensures w.Valid() && w.workers == old(w.workers)[r := Deleting(task)]
    ensures w.counters == Bump(old(w.counters), task.dispatchId, staged, errored)
    ensures var counts := w.counters[task.dispatchId]; var result := FanInVerdict(counts, task.queryCount);
      finalized == (counts.done == task.queryCount && Holds(old(w.targets), task.target, task.dispatchId)) &&
      w.targets == (if counts.done != task.queryCount then old(w.targets)
                    else Finalize(old(w.targets), task.target, task.dispatchId, result,
                      FanInDue(result, at, w.resweepDays)))
    ensures MovedBy(old(w.counters), w.counters, task.dispatchId, staged, errored)
    ensures finalized == (w.counters[task.dispatchId].done == task.queryCount && task.target in old(w.targets) &&
      old(w.targets)[task.target].dispatchId == Some(task.dispatchId))
    ensures if finalized
      then Ended(old(w.targets), w.targets, task.target, w.counters[task.dispatchId], task.queryCount, at,
        w.resweepDays)
      else w.targets == old(w.targets)
  {
    ghost var targets := w.targets;
    var counts := Count(w, r, task, staged, errored, at);
    finalized := FinishDispatch(w, r, task, at, counts);
    if finalized { FinalizeEnds(targets, task, counts, at, w.resweepDays); }
  }
}
