/** What every run of the dispatch, sweep and fan-in protocol keeps. */
module HarvestTheorems {
  import opened Options
  import opened HarvestTables
  import opened HarvestProtocol
  import opened HarvestInvariant
  import opened HarvestSafety
  import opened HistorySums

  lemma ReachableInv(s0: State, steps: seq<Step>)
    requires Init(s0) && ValidRun(s0, steps)
    ensures Inv(Run(s0, steps))
  {
    InitInv(s0);
    RunKeepsInv(s0, steps);
  }

  ghost predicate ExactlyOneRow(history: seq<HistoryRow>, id: nat, q: nat) {
    exists i :: 0 <= i < |history| && IsKey(history[i], id, q) &&
      forall j :: 0 <= j < |history| && IsKey(history[j], id, q) ==> j == i
  }

  /** Fan-in soundness: whatever was lost, redelivered or crashed, an increment that reaches the query count
      has counted every query exactly once, and the counter agrees with the history. */
  lemma FanInSound(s0: State, steps: seq<Step>, w: nat)
    requires Init(s0) && ValidRun(s0, steps)
    requires Enabled(Run(s0, steps), Increment(w))
    ensures
      var s := Apply(Run(s0, steps), Increment(w));
      var task := s.workers[w].task;
      s.workers[w].counts.done == task.queryCount ==>
        Complete(s.history, task.dispatchId, task.queryCount) &&
        (forall q: nat :: q < task.queryCount ==>
          ExactlyOneRow(s.history, task.dispatchId, q) && s.increments[(task.dispatchId, q)] == 1) &&
        s.workers[w].counts.candidates == Total(s.history, task.dispatchId, Staged) &&
        s.workers[w].counts.errors == Total(s.history, task.dispatchId, Errored)
  {
    var before := Run(s0, steps);
    ReachableInv(s0, steps);
    StepKeepsInv(before, Increment(w));
    var s := Apply(before, Increment(w));
    var pc := s.workers[w];
    var d, count := pc.task.dispatchId, pc.task.queryCount;
    assert TaskOk(s, pc.task) && WorkerOk(s, pc) && CounterOk(s, d);
    if pc.counts.done == count {
      forall q: nat | q < count ensures ExactlyOneRow(s.history, d, q) && s.increments[(d, q)] == 1 {
        AllCounted(s, d, q);
        assert HasKey(s.history, d, q);
        var i :| 0 <= i < |s.history| && IsKey(s.history[i], d, q);
      }
    }
  }

  lemma AllCounted(s: State, d: nat, q: nat)
    requires TablesOk(s) && d in s.counters && d in s.inCounter && CounterOk(s, d)
    requires s.counters[d].done == s.stamps[d].count && q < s.stamps[d].count
    ensures s.increments[(d, q)] == 1
  {
    var queries := s.inCounter[d];
    forall p | p in queries ensures p < s.stamps[d].count {
      assert s.increments[(d, p)] > 0;
      assert HasKey(s.history, d, p);
      var i :| 0 <= i < |s.history| && IsKey(s.history[i], d, p);
    }
    RangeSet(s.stamps[d].count, queries);
  }

  /** Every finalization wrote the result its dispatch's rows call for, once all of them were written. */
  lemma FinalizationRefinesResult(s0: State, steps: seq<Step>, i: nat)
    requires Init(s0) && ValidRun(s0, steps)
    requires i < |Run(s0, steps).log| && Run(s0, steps).log[i].FinalEvent?
    ensures
      var s := Run(s0, steps);
      var e := s.log[i];
      e.id in s.stamps && Complete(s.history, e.id, s.stamps[e.id].count) &&
      (s.stamps[e.id].source.Serper? ==> e.result == ResultOf(s.history, e.id)) &&
      (s.stamps[e.id].source.LegalCodes? ==>
        exists j :: 0 <= j < |s.history| && IsKey(s.history[j], e.id, 0) && s.history[j].result == e.result)
  {
    ReachableInv(s0, steps);
    assert FinalOk(Run(s0, steps), Run(s0, steps).log[i]);
  }

  /** A dispatch ends at most once: one finalization of it, or one re-dispatch over it, never two of either. */
  lemma EachDispatchEndsOnce(s0: State, steps: seq<Step>, i: nat, j: nat, d: nat)
    requires Init(s0) && ValidRun(s0, steps)
    requires i < |Run(s0, steps).log| && j < |Run(s0, steps).log|
    requires Ends(Run(s0, steps).log[i], d) && Ends(Run(s0, steps).log[j], d)
    ensures i == j
  {
    ReachableInv(s0, steps);
  }

  /** A row changes only by a worker of the dispatch it carries, or by an orchestrator
      whose snapshot of the stamp is still current, or that found nothing to crawl. */
  lemma RowChangesByOwner(s: State, step: Step, k: nat)
    requires Enabled(s, step) && k in s.targets
    ensures k in Apply(s, step).targets
    ensures Apply(s, step).targets[k] != s.targets[k] ==>
      ((step.FanIn? || step.CrawlFinish?) &&
        s.targets[k].dispatchId == Some(s.workers[step.w].task.dispatchId) && s.workers[step.w].task.target == k) ||
      (step.StampRow? && s.orchestrators[step.o].todo[0].id == k &&
        StampMatches(s.targets[k], s.orchestrators[step.o].todo[0].dispatchId,
                     s.orchestrators[step.o].todo[0].dispatchedAt)) ||
      (step.Park? && s.orchestrators[step.o].todo[0].id == k)
  {
    match step
    case FanIn(w) => FanInChangesByOwner(s, w, k);
    case CrawlFinish(w) => CrawlChangesByOwner(s, w, k);
    case StampRow(o, count) => StampChangesByOwner(s, o, count, k);
    case Park(o) => ParkChangesByOwner(s, o, k);
    case _ => OthersLeaveRows(s, step);
  }

  lemma FanInChangesByOwner(s: State, w: nat, k: nat)
    requires Enabled(s, FanIn(w)) && k in s.targets
    ensures var s' := Apply(s, FanIn(w));
      k in s'.targets &&
      (s'.targets[k] != s.targets[k] ==>
        s.targets[k].dispatchId == Some(s.workers[w].task.dispatchId) && s.workers[w].task.target == k)
  {
    assert Apply(s, FanIn(w)) == DoFanIn(s, w);
  }

  lemma StampChangesByOwner(s: State, o: nat, count: nat, k: nat)
    requires Enabled(s, StampRow(o, count)) && k in s.targets
    ensures var s' := Apply(s, StampRow(o, count)); var t := s.orchestrators[o].todo[0];
      k in s'.targets &&
      (s'.targets[k] != s.targets[k] ==> t.id == k && StampMatches(s.targets[k], t.dispatchId, t.dispatchedAt))
  {
    assert Apply(s, StampRow(o, count)) == DoStamp(s, o, count);
  }

  lemma ParkChangesByOwner(s: State, o: nat, k: nat)
    requires Enabled(s, Park(o)) && k in s.targets
    ensures var s' := Apply(s, Park(o));
      k in s'.targets && (s'.targets[k] != s.targets[k] ==> s.orchestrators[o].todo[0].id == k)
  {
    assert Apply(s, Park(o)) == DoPark(s, o);
  }

  lemma CrawlChangesByOwner(s: State, w: nat, k: nat)
    requires Enabled(s, CrawlFinish(w)) && k in s.targets
    ensures var s' := Apply(s, CrawlFinish(w));
      k in s'.targets &&
      (s'.targets[k] != s.targets[k] ==>
        s.targets[k].dispatchId == Some(s.workers[w].task.dispatchId) && s.workers[w].task.target == k)
  {
  }

  lemma OthersLeaveRows(s: State, step: Step)
    requires Enabled(s, step) && !step.FanIn? && !step.CrawlFinish? && !step.StampRow? && !step.Park?
    ensures Apply(s, step).targets == s.targets
  {
    match step
    case Record(w) => assert Apply(s, step) == DoRecord(s, w);
    case Increment(w) => assert Apply(s, step) == DoIncrement(s, w);
    case Send(o) => assert Apply(s, step) == DoSend(s, o);
    case _ =>
  }

  /** Every message in flight was sent under a stamp that succeeded, and carries that stamp's query count. */
  lemma MessagesFollowStamps(s0: State, steps: seq<Step>, task: Task)
    requires Init(s0) && ValidRun(s0, steps) && task in Run(s0, steps).sent
    ensures
      var s := Run(s0, steps);
      task.dispatchId in s.stamps && s.stamps[task.dispatchId].target == task.target &&
      s.stamps[task.dispatchId].source == task.source &&
      s.stamps[task.dispatchId].count == task.queryCount && task.querySeq < task.queryCount
  {
    ReachableInv(s0, steps);
    assert TaskOk(Run(s0, steps), task);
  }

  /** Two stamps of a row that nothing finalized or parked in between are their source's timeout apart,
      however many orchestrators there are. */
  lemma StampsAreSpaced(s0: State, steps: seq<Step>, i: nat, j: nat)
    requires Init(s0) && ValidRun(s0, steps)
    requires i < j < |Run(s0, steps).log|
    requires Run(s0, steps).log[i].StampEvent? && Run(s0, steps).log[j].StampEvent?
    requires Run(s0, steps).log[i].target == Run(s0, steps).log[j].target
    requires forall m :: i < m < j ==> !Clears(Run(s0, steps).log[m], Run(s0, steps).log[i].target)
    ensures var s := Run(s0, steps);
            s.log[i].target in s.targets &&
            s.log[j].at >= s.log[i].at + (if s.targets[s.log[i].target].source.Serper? then 1800 else 7200)
  {
    ReachableInv(s0, steps);
    var s := Run(s0, steps);
    assert Uncleared(s.log, i, j, s.log[i].target);
  }

  /** The log replays to the table: it misses no stamp, finalization or park. */
  lemma LogReplaysRows(s0: State, steps: seq<Step>, k: nat)
    requires Init(s0) && ValidRun(s0, steps) && k in Run(s0, steps).targets
    ensures
      var s := Run(s0, steps);
      (s.targets[k].dispatchId.Some? <==> s.targets[k].dispatchedAt.Some?) &&
      StampAfter(s.log, k) == if s.targets[k].dispatchId.Some?
                              then Some((s.targets[k].dispatchId.value, s.targets[k].dispatchedAt.value)) else None
  {
    ReachableInv(s0, steps);
    assert RowOk(Run(s0, steps), k);
  }
}
