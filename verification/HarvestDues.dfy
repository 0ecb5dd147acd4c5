/** Results and due times over whole runs: what a history row may say, when a finalized row is due again and from which
    of its dispatch's rows, and that every row shows what last happened to it. */
module HarvestDues {
  import opened Options
  import opened HarvestTables
  import opened HarvestProtocol
  import opened HarvestInvariant
  import opened HarvestSafety
  import opened HarvestTheorems
  import opened HarvestReread

  /** A row's result against the candidates it staged. A sweep that failed may have staged some before. */
  predicate RowSays(row: HistoryRow) {
    (row.result.Candidates? ==> row.candidates > 0) && (row.result.NotFound? ==> row.candidates == 0) &&
    (row.source.LegalCodes? && row.result.Error? ==> row.candidates == 0)
  }

  /** An error retries after a day and anything else waits for the resweep, except that a crawl with candidates may have
      been cut short and then resumes after a day. */
  predicate DueSince(source: Source, result: SweepResult, due: Time, at: Time, resweepDays: nat) {
    if result.Error? then due == at + 86400
    else due == at + 86400 * resweepDays || (source.LegalCodes? && result.Candidates? && due == at + 86400)
  }

  ghost predicate DueFromRow(history: seq<HistoryRow>, id: nat, source: Source, result: SweepResult, due: Time,
                             resweepDays: nat) {
    exists i :: 0 <= i < |history| && history[i].dispatchId == id &&
      DueSince(source, result, due, history[i].sweptAt, resweepDays)
  }

  ghost predicate SweptAt(history: seq<HistoryRow>, id: nat, at: Time) {
    exists i :: 0 <= i < |history| && history[i].dispatchId == id && history[i].sweptAt == at
  }

  /** A worker counts and finalizes at the time its own history row carries. */
  ghost predicate WorkerSays(s: State, pc: Worker) {
    (pc.Recorded? || pc.Counted? || pc.Expiring? ==> SweptAt(s.history, pc.task.dispatchId, pc.at)) &&
    (pc.Crawled? ==>
      (pc.result.Candidates? <==> pc.staged > 0) &&
      DueSince(LegalCodes, pc.result, pc.due, pc.at, s.resweepDays)) &&
    (pc.CrawlRecorded? ==>
      DueFromRow(s.history, pc.task.dispatchId, LegalCodes, pc.result, pc.due, s.resweepDays))
  }

  ghost predicate EventSays(s: State, e: Event) {
    e.FinalEvent? ==>
      e.id in s.stamps && DueFromRow(s.history, e.id, s.stamps[e.id].source, e.result, e.due, s.resweepDays)
  }

  ghost predicate SourceKnown(s: State, row: HistoryRow) {
    row.dispatchId in s.stamps && s.stamps[row.dispatchId].source == row.source
  }

  ghost predicate DuesOk(s: State) {
    (forall i :: 0 <= i < |s.history| ==> RowSays(s.history[i]) && SourceKnown(s, s.history[i])) &&
    (forall w :: w in s.workers ==> WorkerSays(s, s.workers[w])) &&
    forall i :: 0 <= i < |s.log| ==> EventSays(s, s.log[i])
  }

  // ---- frames

  /** History and stamps only grow, and the configuration stays. */
  ghost predicate Later(s: State, s': State) {
    s.history <= s'.history && s'.resweepDays == s.resweepDays &&
    forall d :: d in s.stamps ==> d in s'.stamps && s'.stamps[d] == s.stamps[d]
  }

  lemma RowStays(h: seq<HistoryRow>, h': seq<HistoryRow>, id: nat, source: Source, result: SweepResult, due: Time,
                 resweepDays: nat)
    requires h <= h' && DueFromRow(h, id, source, result, due, resweepDays)
    ensures DueFromRow(h', id, source, result, due, resweepDays)
  {
    var i :| 0 <= i < |h| && h[i].dispatchId == id && DueSince(source, result, due, h[i].sweptAt, resweepDays);
    assert h'[i] == h[i];
  }

  lemma TimeStays(h: seq<HistoryRow>, h': seq<HistoryRow>, id: nat, at: Time)
    requires h <= h' && SweptAt(h, id, at)
    ensures SweptAt(h', id, at)
  {
    var i :| 0 <= i < |h| && h[i].dispatchId == id && h[i].sweptAt == at;
    assert h'[i] == h[i];
  }

  lemma WorkerSaysStill(s: State, s': State, pc: Worker)
    requires WorkerSays(s, pc) && Later(s, s')
    ensures WorkerSays(s', pc)
  {
    if pc.Recorded? || pc.Counted? || pc.Expiring? { TimeStays(s.history, s'.history, pc.task.dispatchId, pc.at); }
    if pc.CrawlRecorded? {
      RowStays(s.history, s'.history, pc.task.dispatchId, LegalCodes, pc.result, pc.due, s.resweepDays);
    }
  }

  lemma EventSaysStill(s: State, s': State, e: Event)
    requires EventSays(s, e) && Later(s, s')
    ensures EventSays(s', e)
  {
    if e.FinalEvent? {
      RowStays(s.history, s'.history, e.id, s.stamps[e.id].source, e.result, e.due, s.resweepDays);
    }
  }

  /** Nothing but worker `w` moved, at most one row and one event were added, and what is new is fine. */
  lemma DuesStay(s: State, s': State, w: nat)
    requires DuesOk(s) && Later(s, s') && |s'.history| <= |s.history| + 1
    requires |s'.history| > |s.history| ==>
      RowSays(s'.history[|s.history|]) && SourceKnown(s', s'.history[|s.history|])
    requires forall v :: v in s'.workers && v != w ==> v in s.workers && s'.workers[v] == s.workers[v]
    requires w in s'.workers ==> WorkerSays(s', s'.workers[w])
    requires s.log <= s'.log && |s'.log| <= |s.log| + 1 && (|s'.log| > |s.log| ==> EventSays(s', s'.log[|s.log|]))
    ensures DuesOk(s')
  {
    forall v | v in s'.workers && v != w ensures WorkerSays(s', s'.workers[v]) { WorkerSaysStill(s, s', s.workers[v]); }
    forall i | 0 <= i < |s'.log| ensures EventSays(s', s'.log[i]) {
      if i < |s.log| { EventSaysStill(s, s', s.log[i]); }
    }
    forall i | 0 <= i < |s'.history| ensures RowSays(s'.history[i]) && SourceKnown(s', s'.history[i]) {
      if i < |s.history| { assert s'.history[i] == s.history[i]; }
    }
  }

  // ---- the steps

  lemma RecordSays(s: State, w: nat)
    requires DuesOk(s) && w in s.workers && (s.workers[w].Swept? || s.workers[w].Crawled?)
    requires WorkerOk(s, s.workers[w]) && TaskOk(s, s.workers[w].task)
    ensures var s' := DoRecord(s, w);
      WorkerSays(s', s'.workers[w]) &&
      (|s'.history| > |s.history| ==> RowSays(s'.history[|s.history|]) && SourceKnown(s', s'.history[|s.history|]))
    ensures var s' := DoRecord(s, w);
      Later(s, s') && |s'.history| <= |s.history| + 1 && s'.log == s.log &&
      forall v :: v in s'.workers && v != w ==> v in s.workers && s'.workers[v] == s.workers[v]
  {
    var s', pc := DoRecord(s, w), s.workers[w];
    assert WorkerSays(s, pc) && TaskSource(pc);
    if |s'.history| > |s.history| {
      assert s'.history[|s.history|] == RowOf(pc);
    }
  }

  predicate TaskSource(pc: Worker) {
    (pc.Swept? ==> pc.task.source.Serper?) && (pc.Crawled? ==> pc.task.source.LegalCodes?)
  }

  /** Worker steps that write neither history nor rows. */
  lemma QuietSays(s: State, step: Step)
    requires DuesOk(s) && Enabled(s, step) && IsWorkerStep(step) && !step.Record? && !MovesRows(step)
    ensures var s' := Apply(s, step);
      s'.history == s.history && s'.stamps == s.stamps && s'.resweepDays == s.resweepDays &&
      (step.w in s'.workers ==> WorkerSays(s', s'.workers[step.w]))
  {
    if step.w in s.workers { assert WorkerSays(s, s.workers[step.w]); }
    if step.Crawl? { CrawlSays(s, step.w, step.staged, step.complete, step.anyErrors); }
  }

  /** A crawl has candidates exactly when it staged some, is an error exactly when it staged none and was cut short or
      had a failed portal, and comes back after a day when it was cut short or is an error. */
  lemma CrawlSays(s: State, w: nat, staged: nat, complete: bool, anyErrors: bool)
    requires Enabled(s, Crawl(w, staged, complete, anyErrors))
    ensures var pc := AfterCrawl(s, s.workers[w].task, staged, complete, anyErrors);
      (pc.result.Candidates? <==> staged > 0) &&
      (pc.result.Error? <==> staged == 0 && (!complete || anyErrors)) &&
      pc.due == pc.at + 86400 * (if !complete || (anyErrors && staged == 0) then 1 else s.resweepDays) &&
      WorkerSays(s, pc)
  {
  }

  lemma FinalizeSays(s: State, w: nat, e: Event)
    requires DuesOk(s) && w in s.workers && e.FinalEvent? && EventSays(s, e)
    ensures DuesOk(DoFinalize(s, w, e.target, e.id, e.result, e.due))
  {
    DuesStay(s, DoFinalize(s, w, e.target, e.id, e.result, e.due), w);
  }

  lemma FanInSays(s: State, w: nat)
    requires DuesOk(s) && Enabled(s, FanIn(w)) && TaskOk(s, s.workers[w].task)
    ensures DuesOk(DoFanIn(s, w))
  {
    var pc := s.workers[w];
    assert WorkerSays(s, pc);
    if pc.counts.done != pc.task.queryCount {
      DuesStay(s, DoFanIn(s, w), w);
    } else {
      var result := FanInVerdict(pc.counts, pc.task.queryCount);
      var due := FanInDue(result, pc.at, s.resweepDays);
      var i :| 0 <= i < |s.history| && s.history[i].dispatchId == pc.task.dispatchId && s.history[i].sweptAt == pc.at;
      assert DueSince(s.stamps[pc.task.dispatchId].source, result, due, s.history[i].sweptAt, s.resweepDays);
      FinalizeSays(s, w, FinalEvent(pc.task.target, pc.task.dispatchId, result, due));
    }
  }

  lemma CrawlFinishSays(s: State, w: nat)
    requires DuesOk(s) && Enabled(s, CrawlFinish(w)) && TaskOk(s, s.workers[w].task) && WorkerOk(s, s.workers[w])
    ensures DuesOk(Apply(s, CrawlFinish(w)))
  {
    var pc := s.workers[w];
    assert WorkerSays(s, pc);
    FinalizeSays(s, w, FinalEvent(pc.task.target, pc.task.dispatchId, pc.result, pc.due));
  }

  lemma StampSays(s: State, o: nat, count: nat)
    requires DuesOk(s) && Enabled(s, StampRow(o, count)) && StampsOk(s)
    ensures DuesOk(DoStamp(s, o, count))
  {
    var s' := DoStamp(s, o, count);
    assert Later(s, s') && s'.history == s.history && s'.workers == s.workers;
    forall w | w in s'.workers ensures WorkerSays(s', s'.workers[w]) { WorkerSaysStill(s, s', s.workers[w]); }
    forall i | 0 <= i < |s'.log| ensures EventSays(s', s'.log[i]) {
      if i < |s.log| { assert s'.log[i] == s.log[i]; EventSaysStill(s, s', s.log[i]); }
    }
  }

  lemma ParkSays(s: State, o: nat)
    requires DuesOk(s) && Enabled(s, Park(o))
    ensures DuesOk(DoPark(s, o))
  {
    var s' := DoPark(s, o);
    forall w | w in s'.workers ensures WorkerSays(s', s'.workers[w]) { WorkerSaysStill(s, s', s.workers[w]); }
    forall i | 0 <= i < |s'.log| ensures EventSays(s', s'.log[i]) {
      if i < |s.log| { assert s'.log[i] == s.log[i]; EventSaysStill(s, s', s.log[i]); }
    }
  }

  lemma IdleSays(s: State, step: Step)
    requires DuesOk(s) && Enabled(s, step) && !IsWorkerStep(step) && !MovesRows(step)
    ensures DuesOk(Apply(s, step))
  {
    var s' := Apply(s, step);
    IdleFrame(s, step);
    IdleTables(s, step);
    forall w | w in s'.workers ensures WorkerSays(s', s'.workers[w]) { WorkerSaysStill(s, s', s.workers[w]); }
    forall i | 0 <= i < |s'.log| ensures EventSays(s', s'.log[i]) { EventSaysStill(s, s', s.log[i]); }
  }

  lemma IdleTables(s: State, step: Step)
    requires Enabled(s, step) && !IsWorkerStep(step) && !MovesRows(step)
    ensures Apply(s, step).history == s.history && Apply(s, step).stamps == s.stamps
  {
    if step.Send? { assert Apply(s, step) == DoSend(s, step.o); }
  }

  lemma StepKeepsDues(s: State, step: Step)
    requires DuesOk(s) && Inv(s) && Enabled(s, step)
    ensures DuesOk(Apply(s, step))
  {
    if step.FanIn? { assert TaskOk(s, s.workers[step.w].task); FanInSays(s, step.w); }
    else if step.CrawlFinish? {
      assert TaskOk(s, s.workers[step.w].task) && WorkerOk(s, s.workers[step.w]);
      CrawlFinishSays(s, step.w);
    }
    else if step.StampRow? { StampSays(s, step.o, step.count); }
    else if step.Park? { ParkSays(s, step.o); }
    else if step.Record? {
      assert TaskOk(s, s.workers[step.w].task) && WorkerOk(s, s.workers[step.w]);
      RecordSays(s, step.w);
      DuesStay(s, DoRecord(s, step.w), step.w);
    }
    else { QuietKeepsDues(s, step); }
  }

  lemma QuietKeepsDues(s: State, step: Step)
    requires DuesOk(s) && Enabled(s, step) && !step.Record? && !MovesRows(step)
    ensures DuesOk(Apply(s, step))
  {
    if IsWorkerStep(step) {
      WorkerStepFrame(s, step);
      QuietSays(s, step);
      DuesStay(s, Apply(s, step), step.w);
    } else {
      IdleSays(s, step);
    }
  }

  lemma {:induction false} RunKeepsDues(s: State, steps: seq<Step>)
    requires DuesOk(s) && Inv(s) && ValidRun(s, steps)
    ensures DuesOk(Run(s, steps)) && Run(s, steps).resweepDays == s.resweepDays
    decreases |steps|
  {
    if steps != [] {
      StepKeepsDues(s, steps[0]);
      StepKeepsInv(s, steps[0]);
      StepKeepsResweep(s, steps[0]);
      RunKeepsDues(Apply(s, steps[0]), steps[1..]);
    }
  }

  lemma ReachableDues(s0: State, steps: seq<Step>)
    requires Init(s0) && ValidRun(s0, steps)
    ensures DuesOk(Run(s0, steps)) && Run(s0, steps).resweepDays == s0.resweepDays && Inv(Run(s0, steps))
  {
    InitInv(s0);
    RunKeepsDues(s0, steps);
    ReachableInv(s0, steps);
  }

  // ---- rows and the log

  /** The row shows what cleared it last, or what it started with. */
  ghost predicate RowShows(a: State, s: State, k: nat) {
    k in a.targets && k in s.targets &&
    var last := LastClear(s.log, 0, k);
    match last
    case None => s.targets[k].nextDueAt == a.targets[k].nextDueAt && s.targets[k].lastResult == a.targets[k].lastResult
    case Some(e) =>
      s.targets[k].nextDueAt == e.due && s.targets[k].lastResult == Some(if e.FinalEvent? then e.result else Error)
  }

  lemma FinalizeShows(a: State, s: State, w: nat, k: nat, e: Event)
    requires RowShows(a, s, k) && w in s.workers && e.FinalEvent?
    ensures RowShows(a, DoFinalize(s, w, e.target, e.id, e.result, e.due), k)
  {
    if Holds(s.targets, e.target, e.id) { AppendClear(s.log, 0, k, e); }
  }

  lemma FanInShows(a: State, s: State, w: nat, k: nat)
    requires RowShows(a, s, k) && Enabled(s, FanIn(w))
    ensures RowShows(a, DoFanIn(s, w), k)
  {
    var pc := s.workers[w];
    if pc.counts.done == pc.task.queryCount {
      var result := FanInVerdict(pc.counts, pc.task.queryCount);
      FinalizeShows(a, s, w, k, FinalEvent(pc.task.target, pc.task.dispatchId, result,
        FanInDue(result, pc.at, s.resweepDays)));
    }
  }

  lemma StampShows(a: State, s: State, o: nat, count: nat, k: nat)
    requires RowShows(a, s, k) && Enabled(s, StampRow(o, count))
    ensures RowShows(a, DoStamp(s, o, count), k)
  {
    var s', t := DoStamp(s, o, count), s.orchestrators[o].todo[0];
    if StampMatches(s.targets[t.id], t.dispatchId, t.dispatchedAt) {
      assert s'.targets == s.targets[t.id := Stamped(s.targets[t.id], s.orchestrators[o].at, s.nextId, count)];
      StampedShows(a, s, s', k, t.id, StampEvent(t.id, s.orchestrators[o].at, s.nextId, t.dispatchId));
    } else {
      assert s'.targets == s.targets && s'.log == s.log;
    }
  }

  lemma StampedShows(a: State, s: State, s': State, k: nat, id: nat, e: Event)
    requires RowShows(a, s, k) && e.StampEvent? && s'.log == s.log + [e] && id in s.targets && id in s'.targets
    requires s'.targets == s.targets[id := s'.targets[id]]
    requires s'.targets[id].nextDueAt == s.targets[id].nextDueAt
    requires s'.targets[id].lastResult == s.targets[id].lastResult
    ensures RowShows(a, s', k)
  {
    AppendClear(s.log, 0, k, e);
  }

  lemma ParkShows(a: State, s: State, o: nat, k: nat)
    requires RowShows(a, s, k) && Enabled(s, Park(o))
    ensures RowShows(a, DoPark(s, o), k)
  {
    var pc := s.orchestrators[o];
    AppendClear(s.log, 0, k, ParkEvent(pc.todo[0].id, pc.at + DAY * s.resweepDays));
  }

  lemma StepShows(a: State, s: State, step: Step, k: nat)
    requires RowShows(a, s, k) && Enabled(s, step)
    ensures RowShows(a, Apply(s, step), k)
  {
    if step.FanIn? { FanInShows(a, s, step.w, k); }
    else if step.CrawlFinish? {
      var pc := s.workers[step.w];
      FinalizeShows(a, s, step.w, k, FinalEvent(pc.task.target, pc.task.dispatchId, pc.result, pc.due));
    }
    else if step.StampRow? { StampShows(a, s, step.o, step.count, k); }
    else if step.Park? { ParkShows(a, s, step.o, k); }
    else if IsWorkerStep(step) { WorkerStepFrame(s, step); }
    else { IdleFrame(s, step); }
  }

  lemma {:induction false} RunShows(a: State, s: State, steps: seq<Step>, k: nat)
    requires RowShows(a, s, k) && ValidRun(s, steps)
    ensures RowShows(a, Run(s, steps), k)
    decreases |steps|
  {
    if steps != [] {
      StepShows(a, s, steps[0], k);
      RunShows(a, Apply(s, steps[0]), steps[1..], k);
    }
  }

  // ---- the theorems

  /** A row's result and due time are what its last finalization or parking wrote, or what it was seeded with. */
  lemma RowsShowTheirLastEvent(s0: State, steps: seq<Step>, k: nat)
    requires Init(s0) && ValidRun(s0, steps) && k in s0.targets
    ensures var s := Run(s0, steps); var last := LastClear(s.log, 0, k);
      k in s.targets &&
      match last
      case None =>
        s.targets[k].nextDueAt == s0.targets[k].nextDueAt && s.targets[k].lastResult == s0.targets[k].lastResult
      case Some(e) =>
        s.targets[k].nextDueAt == e.due && s.targets[k].lastResult == Some(if e.FinalEvent? then e.result else Error)
  {
    RunShows(s0, s0, steps, k);
    assert RowShows(s0, Run(s0, steps), k);
  }

  /** Every sweep finalization of every run: the next due time is counted from the time of one of its dispatch's history
      rows, a day after an error and the resweep interval after anything else. */
  lemma SweepIsDueAgain(s0: State, steps: seq<Step>, i: nat) returns (j: nat)
    requires Init(s0) && ValidRun(s0, steps) && i < |Run(s0, steps).log| && Run(s0, steps).log[i].FinalEvent?
    requires var s := Run(s0, steps); s.log[i].id in s.stamps ==> s.stamps[s.log[i].id].source.Serper?
    ensures var s := Run(s0, steps); var e := s.log[i];
      j < |s.history| && s.history[j].dispatchId == e.id &&
      (e.result.Error? ==> e.due == s.history[j].sweptAt + 86400) &&
      (!e.result.Error? ==> e.due == s.history[j].sweptAt + 86400 * s0.resweepDays)
  {
    ReachableDues(s0, steps);
    var s := Run(s0, steps);
    var e := s.log[i];
    assert EventSays(s, e);
    j :| 0 <= j < |s.history| && s.history[j].dispatchId == e.id &&
      DueSince(s.stamps[e.id].source, e.result, e.due, s.history[j].sweptAt, s.resweepDays);
  }

  /** Every crawl finalization: a day after an error, the resweep interval after an empty crawl, either after one with
      candidates, counted from the crawl's own row, which carries the same result. */
  lemma CrawlIsDueAgain(s0: State, steps: seq<Step>, i: nat) returns (j: nat)
    requires Init(s0) && ValidRun(s0, steps) && i < |Run(s0, steps).log| && Run(s0, steps).log[i].FinalEvent?
    requires var s := Run(s0, steps); s.log[i].id in s.stamps ==> s.stamps[s.log[i].id].source.LegalCodes?
    ensures var s := Run(s0, steps); var e := s.log[i];
      j < |s.history| && s.history[j].dispatchId == e.id && s.history[j].result == e.result &&
      (e.result.Candidates? <==> s.history[j].candidates > 0) &&
      (e.result.Error? ==> e.due == s.history[j].sweptAt + 86400) &&
      (e.result.NotFound? ==> e.due == s.history[j].sweptAt + 86400 * s0.resweepDays) &&
      (e.result.Candidates? ==>
        e.due == s.history[j].sweptAt + 86400 || e.due == s.history[j].sweptAt + 86400 * s0.resweepDays)
  {
    ReachableDues(s0, steps);
    var s := Run(s0, steps);
    var e := s.log[i];
    assert EventSays(s, e) && FinalOk(s, e);
    j :| 0 <= j < |s.history| && s.history[j].dispatchId == e.id &&
      DueSince(s.stamps[e.id].source, e.result, e.due, s.history[j].sweptAt, s.resweepDays);
    assert RowSays(s.history[j]) && SourceKnown(s, s.history[j]);
    OnlyRow(s, e, j);
  }

  /** A crawl's dispatch has one row. */
  lemma OnlyRow(s: State, e: Event, j: nat)
    requires Inv(s) && e.FinalEvent? && FinalOk(s, e) && e.id in s.stamps && s.stamps[e.id].source.LegalCodes?
    requires j < |s.history| && s.history[j].dispatchId == e.id && SourceKnown(s, s.history[j])
    ensures s.history[j].result == e.result && s.history[j].source.LegalCodes?
  {
    var i :| 0 <= i < |s.history| && IsKey(s.history[i], e.id, 0) && s.history[i].result == e.result;
    assert s.stamps[e.id].count == 1;
    assert s.history[j].querySeq == 0;
    assert i == j;
  }

  /** The result of every history row of every run says what it staged. */
  lemma RowsSay(s0: State, steps: seq<Step>, i: nat)
    requires Init(s0) && ValidRun(s0, steps) && i < |Run(s0, steps).history|
    ensures var row := Run(s0, steps).history[i];
      (row.result.Candidates? ==> row.candidates > 0) && (row.result.NotFound? ==> row.candidates == 0) &&
      (row.source.LegalCodes? && row.result.Error? ==> row.candidates == 0)
  {
    ReachableDues(s0, steps);
    assert RowSays(Run(s0, steps).history[i]);
  }
}
