/** The sweep worker: gate, search, triage, stage, record, count and delete, for a batch of query tasks. */
module Sweeping {
  import opened Options
  import opened HarvestTables
  import opened HarvestProtocol
  import opened HarvestWorld
  import FanIn

  // ---- the gate

  /** A message is worked only while its corpus runs, its target carries its dispatch, and its query has no row yet. */
  predicate Open(s: State, task: Task) {
    task.corpus in s.switches && s.switches[task.corpus].Running? && Holds(s.targets, task.target, task.dispatchId) &&
    !HasRow(s.history, task.corpus, task.jurisdiction, task.dispatchId, task.querySeq)
  }

  /** Nothing changed but where worker `r` stands. */
  ghost predicate Stands(before: State, after: State, r: nat, pc: Worker) {
    after == before.(workers := before.workers[r := pc])
  }

  ghost method ReadRow(w: World, r: nat, task: Task)
    requires w.Valid() && r in w.workers && w.workers[r] == SwitchRead(task) && task.source.Serper?
    modifies w`workers, w`orchestrators, w`stamps, w`inCounter, w`increments, w`log
    ensures w.Valid() && Stands(old(w.View()), w.View(), r,
      if Holds(w.targets, task.target, task.dispatchId) &&
        !HasRow(w.history, task.corpus, task.jurisdiction, task.dispatchId, task.querySeq)
      then Gated(task) else Deleting(task))
  {
    var pc := AfterTarget(w.View(), task);
    Move(w, r, ReadTarget(r), pc);
    if pc.TargetRead? { Move(w, r, ReadHistory(r), AfterHistory(w.View(), task)); }
  }

  /** The gate's reads, as steps of worker `r`; it ends gated or about to delete. */
  ghost method PassGate(w: World, r: nat, task: Task)
    requires w.Valid() && r !in w.workers && task in w.sent && task.source.Serper?
    modifies w`workers, w`orchestrators, w`stamps, w`inCounter, w`increments, w`log
    ensures w.Valid() && Stands(old(w.View()), w.View(), r,
      if Open(old(w.View()), task) then Gated(task) else Deleting(task))
  {
    Move(w, r, Receive(r, task), Received(task));
    var pc := AfterSwitch(w.View(), task);
    Move(w, r, ReadSwitch(r), pc);
    if pc.SwitchRead? { ReadRow(w, r, task); }
  }

  ghost method Move(w: World, r: nat, step: Step, pc: Worker)
    requires w.Valid() && Enabled(w.View(), step) && Apply(w.View(), step) == w.View().(workers := w.workers[r := pc])
    modifies w`workers, w`orchestrators, w`stamps, w`inCounter, w`increments, w`log
    ensures w.Valid() && Stands(old(w.View()), w.View(), r, pc)
  {
    w.Follow(Apply(w.View(), step));
  }

  ghost method Drop(w: World, r: nat)
    requires w.Valid() && r in w.workers && w.workers[r].Deleting?
    modifies w`workers, w`orchestrators, w`stamps, w`inCounter, w`increments, w`log
    ensures w.Valid() && w.View() == old(w.View()).(workers := old(w.workers) - {r})
  {
    w.Follow(Apply(w.View(), Delete(r)));
  }

  /** The gate: one read after the other, the first mismatch deletes the message unworked. */
  method GateSweep(w: World, ghost r: nat, task: Task) returns (open: bool)
    requires w.Valid() && r !in w.workers && task in w.sent && task.source.Serper?
    modifies w`workers, w`orchestrators, w`stamps, w`inCounter, w`increments, w`log
    ensures w.Valid() && open == Open(old(w.View()), task)
    ensures open == (task.corpus in w.switches && w.switches[task.corpus] == Running && task.target in w.targets &&
      w.targets[task.target].dispatchId == Some(task.dispatchId) &&
      !exists row :: row in w.history && row.dispatchId == task.dispatchId && row.querySeq == task.querySeq &&
        row.corpus == task.corpus && row.jurisdiction == task.jurisdiction)
    ensures w.View() == old(w.View()).(workers := if open then old(w.workers)[r := Gated(task)] else old(w.workers))
  {
    open := false;
    if task.corpus in w.switches && w.switches[task.corpus].Running? {
      if task.target in w.targets && w.targets[task.target].dispatchId == Some(task.dispatchId) {
        var done := w.HistoryHas(task.corpus, task.jurisdiction, task.dispatchId, task.querySeq);
        open := !done;
      }
    }
    PassGate(w, r, task);
    if !open {
      Drop(w, r);
      assert w.workers == old(w.workers);
    }
  }

  // ---- one completed item

  /** What completing items changes. */
  datatype Snap = Snap(history: seq<HistoryRow>, counters: map<nat, Counts>, targets: map<nat, Target>)

  ghost function SnapOf(w: World): Snap
    reads w
  {
    Snap(w.history, w.counters, w.targets)
  }

  function Row(task: Task, staged: nat, errored: bool, at: Time): HistoryRow {
    HistoryRow(task.corpus, task.jurisdiction, task.source, task.dispatchId, task.querySeq,
      QueryResult(staged, errored), staged, at)
  }

  /** The row is recorded once; only its first recording is counted, and a full count finalizes the target. */
  function Complete(s: Snap, task: Task, staged: nat, errored: bool, at: Time, resweepDays: nat): Snap {
    if HasKey(s.history, task.dispatchId, task.querySeq) then s
    else
      var counters := Bump(s.counters, task.dispatchId, staged, errored);
      var counts := counters[task.dispatchId];
      var result := FanInVerdict(counts, task.queryCount);
      Snap(s.history + [Row(task, staged, errored, at)], counters,
           if counts.done != task.queryCount then s.targets
           else Finalize(s.targets, task.target, task.dispatchId, result, FanInDue(result, at, resweepDays)))
  }

  /** The row a completed query leaves: an error exactly when it failed, else candidates exactly when it staged some. */
  ghost predicate RowFor(row: HistoryRow, task: Task, staged: int, errored: bool, at: Time) {
    row.dispatchId == task.dispatchId && row.querySeq == task.querySeq && row.corpus == task.corpus &&
    row.jurisdiction == task.jurisdiction && row.source == task.source && row.sweptAt == at &&
    row.candidates == staged && (row.result.Error? <==> errored) &&
    (row.result.Candidates? <==> !errored && staged > 0)
  }

  /** A known key changes nothing; a new one adds its row, moves its counter by the query, and ends the dispatch when
      the counter reaches the query count and the target still carries it. */
  ghost predicate Written(s: Snap, s': Snap, task: Task, staged: nat, errored: bool, at: Time, resweepDays: nat) {
    if exists row :: row in s.history && row.dispatchId == task.dispatchId && row.querySeq == task.querySeq then s' == s
    else
      |s'.history| == |s.history| + 1 && s'.history[..|s.history|] == s.history &&
      RowFor(s'.history[|s.history|], task, staged, errored, at) &&
      FanIn.MovedBy(s.counters, s'.counters, task.dispatchId, staged, errored) &&
      if s'.counters[task.dispatchId].done == task.queryCount && task.target in s.targets &&
        s.targets[task.target].dispatchId == Some(task.dispatchId)
      then FanIn.Ended(s.targets, s'.targets, task.target, s'.counters[task.dispatchId], task.queryCount, at,
        resweepDays)
      else s'.targets == s.targets
  }

  lemma CompleteWrites(s: Snap, task: Task, staged: nat, errored: bool, at: Time, resweepDays: nat)
    ensures Written(s, Complete(s, task, staged, errored, at, resweepDays), task, staged, errored, at, resweepDays)
  {
    var s' := Complete(s, task, staged, errored, at, resweepDays);
    if !HasKey(s.history, task.dispatchId, task.querySeq) {
      forall row | row in s.history ensures !IsKey(row, task.dispatchId, task.querySeq) {
        var i :| 0 <= i < |s.history| && s.history[i] == row;
      }
      if Holds(s.targets, task.target, task.dispatchId) {
        FanIn.FinalizeEnds(s.targets, task, s'.counters[task.dispatchId], at, resweepDays);
      }
    }
  }

  /** The write-back of one item: history, then counter, then delete. */
  method WriteBack(w: World, ghost r: nat, task: Task, staged: nat, errored: bool)
    requires w.Valid() && r in w.workers && w.workers[r] == Gated(task) && task.source.Serper?
    modifies w`targets, w`history, w`counters, w`workers, w`orchestrators, w`stamps, w`inCounter, w`increments, w`log
    ensures w.Valid() && w.workers == old(w.workers) - {r}
    ensures SnapOf(w) == Complete(old(SnapOf(w)), task, staged, errored, w.now, w.resweepDays)
    ensures Written(old(SnapOf(w)), SnapOf(w), task, staged, errored, w.now, w.resweepDays)
  {
    CompleteWrites(SnapOf(w), task, staged, errored, w.now, w.resweepDays);
    RecordAndCount(w, r, task, staged, errored);
    DropLast(w, r, old(w.workers));
  }

  method RecordAndCount(w: World, ghost r: nat, task: Task, staged: nat, errored: bool)
    requires w.Valid() && r in w.workers && w.workers[r] == Gated(task) && task.source.Serper?
    modifies w`targets, w`history, w`counters, w`workers, w`orchestrators, w`stamps, w`inCounter, w`increments, w`log
    ensures w.Valid() && w.workers == old(w.workers)[r := Deleting(task)]
    ensures SnapOf(w) == Complete(old(SnapOf(w)), task, staged, errored, w.now, w.resweepDays)
  {
    SweepStep(w, r, task, staged, errored);
    var inserted := RecordRow(w, r, task, staged, errored);
    if inserted { CountRow(w, r, task, staged, errored); }
  }

  /** The row was new: it is counted, and may be the one that finalizes. */
  method CountRow(w: World, ghost r: nat, task: Task, staged: nat, errored: bool)
    requires w.Valid() && r in w.workers && w.workers[r] == Recorded(task, w.now, staged, errored)
    modifies w`targets, w`counters, w`workers, w`orchestrators, w`stamps, w`inCounter, w`increments, w`log
    ensures w.Valid() && w.workers == old(w.workers)[r := Deleting(task)]
    ensures w.counters == Bump(old(w.counters), task.dispatchId, staged, errored)
    ensures var counts := w.counters[task.dispatchId]; var result := FanInVerdict(counts, task.queryCount);
      w.targets == if counts.done != task.queryCount then old(w.targets)
                   else Finalize(old(w.targets), task.target, task.dispatchId, result,
                     FanInDue(result, w.now, w.resweepDays))
  {
    var _ := FanIn.RecordQueryDone(w, r, task, staged, errored, w.now);
  }

  ghost method DropLast(w: World, r: nat, before: map<nat, Worker>)
    requires w.Valid() && r in w.workers && w.workers[r].Deleting? && w.workers - {r} == before - {r}
    modifies w`workers, w`orchestrators, w`stamps, w`inCounter, w`increments, w`log
    ensures w.Valid() && w.workers == before - {r}
  {
    Drop(w, r);
  }

  ghost method SweepStep(w: World, r: nat, task: Task, staged: nat, errored: bool)
    requires w.Valid() && r in w.workers && w.workers[r] == Gated(task) && task.source.Serper?
    modifies w`workers, w`orchestrators, w`stamps, w`inCounter, w`increments, w`log
    ensures w.Valid() && Stands(old(w.View()), w.View(), r, Swept(task, w.now, staged, errored))
  {
    Move(w, r, Sweep(r, staged, errored), Swept(task, w.now, staged, errored));
  }

  method RecordRow(w: World, ghost r: nat, task: Task, staged: nat, errored: bool) returns (inserted: bool)
    requires w.Valid() && r in w.workers && w.workers[r] == Swept(task, w.now, staged, errored)
    modifies w`history, w`workers, w`orchestrators, w`stamps, w`inCounter, w`increments, w`log
    ensures w.Valid() && inserted == !HasKey(old(w.history), task.dispatchId, task.querySeq)
    ensures w.history == InsertHistory(old(w.history), Row(task, staged, errored, w.now))
    ensures w.workers == old(w.workers)[r := if inserted then Recorded(task, w.now, staged,
      errored) else Deleting(task)]
  {
    ghost var before := w.View();
    inserted := w.InsertHistoryRow(Row(task, staged, errored, w.now));
    assert Enabled(before, Record(r)) && Apply(before, Record(r)) == DoRecord(before, r);
    w.Follow(DoRecord(before, r));
  }
}
