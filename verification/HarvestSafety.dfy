module HarvestSafety {
  import opened Options
  import opened HarvestTables
  import opened HarvestProtocol
  import opened HarvestInvariant
  import opened HistorySums

  // ---- frames: what a step that leaves the tables alone keeps

  ghost predicate SameTables(s: State, s': State) {
    s'.targets == s.targets && s'.history == s.history && s'.increments == s.increments &&
    s'.stamps == s.stamps && s'.log == s.log && s'.nextId == s.nextId && s'.now >= s.now
  }

  lemma TablesFrame(s: State, s': State)
    requires TablesOk(s) && SameTables(s, s')
    ensures TablesOk(s')
  {
    assert StampsOk(s') && RowsOk(s') && HistoryOk(s') && IncrementsOk(s');
    assert LogOk(s') by {
      forall i | 0 <= i < |s'.log| && s'.log[i].FinalEvent? ensures FinalOk(s', s'.log[i]) {
        assert FinalOk(s, s.log[i]);
      }
    }
  }

  lemma OrchestratorsFrame(s: State, s': State)
    requires OrchestratorsOk(s) && SameTables(s, s') && s'.orchestrators == s.orchestrators
    ensures OrchestratorsOk(s')
  {
    forall o | o in s'.orchestrators ensures OrchestratorOk(s', s'.orchestrators[o]) {
      OrchestratorFrame(s, s', s.orchestrators[o]);
    }
  }

  lemma OrchestratorFrame(s: State, s': State, pc: Orchestrator)
    requires OrchestratorOk(s, pc) && SameTables(s, s')
    ensures OrchestratorOk(s', pc)
  {
    if !pc.Started? {
      forall i | 0 <= i < |pc.todo| ensures SnapshotOk(s', pc.todo[i], pc.corpus, pc.at) {
        assert SnapshotOk(s, pc.todo[i], pc.corpus, pc.at);
      }
    }
  }

  lemma TasksFrame(s: State, s': State)
    requires TasksOk(s) && SameTables(s, s') && s'.workers == s.workers && s'.sent == s.sent
    ensures TasksOk(s')
  {
    forall task | task in s'.sent ensures TaskOk(s', task) { assert TaskOk(s, task); }
    forall w | w in s'.workers ensures TaskOk(s', s'.workers[w].task) { assert TaskOk(s, s.workers[w].task); }
  }

  lemma WorkersFrame(s: State, s': State)
    requires WorkersOk(s) && s'.history == s.history && s'.increments == s.increments && s'.workers == s.workers
    ensures WorkersOk(s')
  {
    forall w | w in s'.workers ensures WorkerOk(s', s'.workers[w]) { assert WorkerOk(s, s.workers[w]); }
  }

  lemma CountersFrame(s: State, s': State)
    requires CountersOk(s) && SameTables(s, s') && s'.counters == s.counters && s'.inCounter == s.inCounter
    ensures CountersOk(s')
  {
    forall d | d in s'.counters ensures CounterOk(s', d) { assert CounterOk(s, d); }
  }

  // ---- workers

  /** Only this worker moved, to a program counter that owes no increment. */
  lemma WorkerMoves(s: State, s': State, w: nat, pc: Worker)
    requires Inv(s) && s' == s.(workers := s.workers[w := pc])
    requires TaskOk(s, pc.task) && WorkerOk(s, pc) && !pc.Recorded?
    ensures Inv(s')
  {
    TablesFrame(s, s');
    OrchestratorsFrame(s, s');
    CountersFrame(s, s');
    forall task | task in s'.sent ensures TaskOk(s', task) { assert TaskOk(s, task); }
    forall v | v in s'.workers ensures TaskOk(s', s'.workers[v].task) && WorkerOk(s', s'.workers[v]) {
      if v != w { assert TaskOk(s, s.workers[v].task) && WorkerOk(s, s.workers[v]); }
    }
  }

  lemma WorkerLeaves(s: State, w: nat)
    requires Inv(s)
    ensures Inv(s.(workers := s.workers - {w}))
  {
    var s' := s.(workers := s.workers - {w});
    TablesFrame(s, s');
    OrchestratorsFrame(s, s');
    CountersFrame(s, s');
    forall task | task in s'.sent ensures TaskOk(s', task) { assert TaskOk(s, task); }
    forall v | v in s'.workers ensures TaskOk(s', s'.workers[v].task) && WorkerOk(s', s'.workers[v]) {
      assert TaskOk(s, s.workers[v].task) && WorkerOk(s, s.workers[v]);
    }
  }

  /** The next program counter of a worker step that writes no table and no counter. */
  ghost predicate QuietWorker(s: State, pc: Worker, pc': Worker) {
    pc'.task == pc.task &&
    ((pc.Received? && pc' == AfterSwitch(s, pc.task)) ||
     (pc.SwitchRead? && pc' == AfterTarget(s, pc.task)) ||
     (pc.TargetRead? && pc' == AfterHistory(s, pc.task)) ||
     (pc.Gated? && pc'.Swept? && pc.task.source.Serper?) ||
     (pc.Gated? && pc'.Crawled? && pc.task.source.LegalCodes?) ||
     (pc.Counted? && pc' == Expiring(pc.task, pc.at, pc.counts)) ||
     pc'.Deleting?)
  }

  lemma QuietWorkerOk(s: State, pc: Worker, pc': Worker)
    requires TaskOk(s, pc.task) && WorkerOk(s, pc) && QuietWorker(s, pc, pc')
    ensures TaskOk(s, pc'.task) && WorkerOk(s, pc') && !pc'.Recorded?
  {
  }

  lemma QuietWorkerKeepsInv(s: State, w: nat, pc': Worker)
    requires Inv(s) && w in s.workers && QuietWorker(s, s.workers[w], pc')
    ensures Inv(s.(workers := s.workers[w := pc']))
  {
    assert TaskOk(s, s.workers[w].task) && WorkerOk(s, s.workers[w]);
    QuietWorkerOk(s, s.workers[w], pc');
    WorkerMoves(s, s.(workers := s.workers[w := pc']), w, pc');
  }

  /** What one read of the gate makes of a worker. */
  function AfterRead(s: State, pc: Worker, step: Step): Worker {
    if step.ReadSwitch? then AfterSwitch(s, pc.task)
    else if step.ReadTarget? then AfterTarget(s, pc.task)
    else AfterHistory(s, pc.task)
  }

  lemma GateMoves(s: State, step: Step)
    requires Enabled(s, step) && (step.ReadSwitch? || step.ReadTarget? || step.ReadHistory?)
    ensures Apply(s, step) == s.(workers := s.workers[step.w := AfterRead(s, s.workers[step.w], step)])
    ensures QuietWorker(s, s.workers[step.w], AfterRead(s, s.workers[step.w], step))
  {
  }

  lemma GateKeepsInv(s: State, step: Step)
    requires Inv(s) && Enabled(s, step) && (step.ReadSwitch? || step.ReadTarget? || step.ReadHistory?)
    ensures Inv(Apply(s, step))
  {
    GateMoves(s, step);
    QuietWorkerKeepsInv(s, step.w, AfterRead(s, s.workers[step.w], step));
  }

  lemma WorkKeepsInv(s: State, step: Step)
    requires Inv(s) && Enabled(s, step) && (step.Sweep? || step.Crawl? || step.Expire?)
    ensures Inv(Apply(s, step))
  {
    match step
    case Sweep(w, staged, errored) =>
      QuietWorkerKeepsInv(s, w, Swept(s.workers[w].task, s.now, staged, errored));
    case Crawl(w, staged, complete, anyErrors) =>
      QuietWorkerKeepsInv(s, w, AfterCrawl(s, s.workers[w].task, staged, complete, anyErrors));
    case Expire(w) =>
      QuietWorkerKeepsInv(s, w, Expiring(s.workers[w].task, s.workers[w].at, s.workers[w].counts));
  }

  lemma ComeAndGoKeepsInv(s: State, step: Step)
    requires Inv(s) && Enabled(s, step) && (step.Crash? || step.Receive? || step.Delete?)
    ensures Inv(Apply(s, step))
  {
    match step
    case Crash(w) => WorkerLeaves(s, w);
    case Delete(w) => WorkerLeaves(s, w);
    case Receive(w, task) => WorkerMoves(s, Apply(s, step), w, Received(task));
  }

  lemma EnvironmentKeepsInv(s: State, step: Step)
    requires Inv(s) && Enabled(s, step) && (step.Tick? || step.Switch? || step.LoseCounter?)
    ensures Inv(Apply(s, step))
  {
    var s' := Apply(s, step);
    TablesFrame(s, s');
    OrchestratorsFrame(s, s');
    TasksFrame(s, s');
    WorkersFrame(s, s');
    if step.LoseCounter? {
      forall d | d in s'.counters ensures CounterOk(s', d) { assert CounterOk(s, d); }
    } else {
      CountersFrame(s, s');
    }
  }

  // ---- orchestrators that touch no row

  lemma OrchestratorMoves(s: State, s': State, o: nat, pc: Orchestrator)
    requires Inv(s) && OrchestratorOk(s, pc) && SameTables(s, s') && s'.workers == s.workers
    requires s'.counters == s.counters && s'.inCounter == s.inCounter
    requires s'.orchestrators == s.orchestrators[o := pc]
    requires s.sent <= s'.sent && forall task :: task in s'.sent && task !in s.sent ==> TaskOk(s, task)
    ensures Inv(s')
  {
    TablesFrame(s, s');
    WorkersFrame(s, s');
    CountersFrame(s, s');
    forall q | q in s'.orchestrators ensures OrchestratorOk(s', s'.orchestrators[q]) {
      if q == o { OrchestratorFrame(s, s', pc); } else { OrchestratorFrame(s, s', s.orchestrators[q]); }
    }
    forall task | task in s'.sent ensures TaskOk(s', task) { assert TaskOk(s, task); }
    forall w | w in s'.workers ensures TaskOk(s', s'.workers[w].task) { assert TaskOk(s, s.workers[w].task); }
  }

  lemma OrchestratorLeaves(s: State, o: nat)
    requires Inv(s)
    ensures Inv(s.(orchestrators := s.orchestrators - {o}))
  {
    var s' := s.(orchestrators := s.orchestrators - {o});
    TablesFrame(s, s');
    TasksFrame(s, s');
    WorkersFrame(s, s');
    CountersFrame(s, s');
    forall q | q in s'.orchestrators ensures OrchestratorOk(s', s'.orchestrators[q]) {
      OrchestratorFrame(s, s', s.orchestrators[q]);
    }
  }

  lemma SelectKeepsInv(s: State, o: nat, due: seq<Target>, limit: nat)
    requires Inv(s) && Enabled(s, Select(o, due, limit))
    ensures Inv(Apply(s, Select(o, due, limit)))
  {
    var s' := Apply(s, Select(o, due, limit));
    var pc := s.orchestrators[o];
    assert OrchestratorOk(s, pc);
    forall i | 0 <= i < |due| ensures SnapshotOk(s, due[i], pc.corpus, pc.at) {
      assert RowOk(s, due[i].id);
    }
    OrchestratorMoves(s, s', o, s'.orchestrators[o]);
  }

  lemma SendKeepsInv(s: State, o: nat)
    requires Inv(s) && Enabled(s, Send(o))
    ensures Inv(Apply(s, Send(o)))
  {
    var s' := Apply(s, Send(o));
    var pc := s.orchestrators[o];
    assert OrchestratorOk(s, pc);
    SendIsOk(s, o);
    OrchestratorMoves(s, s', o, s'.orchestrators[o]);
  }

  lemma SendIsOk(s: State, o: nat)
    requires Enabled(s, Send(o)) && OrchestratorOk(s, s.orchestrators[o])
    ensures var s' := DoSend(s, o); var pc := s.orchestrators[o];
      OrchestratorOk(s, s'.orchestrators[o]) && TaskOk(s, TaskFor(pc.todo[0], pc.id, pc.next, pc.count))
  {
    var pc := s.orchestrators[o];
    assert SnapshotOk(s, pc.todo[0], pc.corpus, pc.at);
  }

  lemma StopKeepsInv(s: State, step: Step)
    requires Inv(s) && Enabled(s, step) && step.Stop?
    ensures Inv(Apply(s, step))
  {
    OrchestratorLeaves(s, step.o);
  }

  lemma StartKeepsInv(s: State, step: Step)
    requires Inv(s) && Enabled(s, step) && step.Start?
    ensures Inv(Apply(s, step))
  {
    OrchestratorMoves(s, Apply(s, step), step.o, Started(step.corpus, s.now));
  }

  lemma SkipKeepsInv(s: State, step: Step)
    requires Inv(s) && Enabled(s, step) && step.Skip?
    ensures Inv(Apply(s, step))
  {
    var pc := s.orchestrators[step.o];
    assert OrchestratorOk(s, pc);
    OrchestratorMoves(s, Apply(s, step), step.o, Selected(pc.corpus, pc.at, pc.todo[1..]));
  }

  // ---- the history insert

  lemma {:induction false} CompleteStays(history: seq<HistoryRow>, row: HistoryRow, id: nat, count: nat)
    requires Complete(history, id, count) && (row.dispatchId == id ==> row.querySeq < count)
    requires !HasKey(history, row.dispatchId, row.querySeq)
    ensures Complete(history + [row], id, count) && row.dispatchId != id
  {
    assert row.dispatchId == id ==> HasKey(history, id, row.querySeq);
    forall q: nat | q < count ensures HasKey(history + [row], id, q) {
      KeyStays(history, row, id, q);
    }
  }

  lemma {:induction false} ResultStays(history: seq<HistoryRow>, row: HistoryRow, id: nat)
    requires row.dispatchId != id
    ensures ResultOf(history + [row], id) == ResultOf(history, id)
    ensures forall f: HistoryRow -> nat :: Total(history + [row], id, f) == Total(history, id, f)
  {
    var h := history + [row];
    assert forall i :: 0 <= i < |history| ==> h[i] == history[i];
    assert h[..|history|] == history;
    if exists i :: 0 <= i < |history| && history[i].dispatchId == id && history[i].candidates > 0 {
      var i :| 0 <= i < |history| && history[i].dispatchId == id && history[i].candidates > 0;
      assert h[i].candidates > 0;
    }
  }

  lemma KeyStays(history: seq<HistoryRow>, row: HistoryRow, id: nat, q: nat)
    requires HasKey(history, id, q)
    ensures HasKey(history + [row], id, q)
  {
    var i :| 0 <= i < |history| && IsKey(history[i], id, q);
    assert (history + [row])[i] == history[i];
  }

  lemma VerdictStays(history: seq<HistoryRow>, row: HistoryRow, id: nat, c: Counts, count: nat)
    requires VerdictOk(history, id, c, count) && (row.dispatchId == id ==> row.querySeq < count)
    requires !HasKey(history, row.dispatchId, row.querySeq)
    ensures VerdictOk(history + [row], id, c, count)
  {
    if c.done == count {
      CompleteStays(history, row, id, count);
      ResultStays(history, row, id);
    }
  }

  lemma FinalStays(s: State, s': State, row: HistoryRow, e: Event)
    requires e.FinalEvent? && FinalOk(s, e) && s'.stamps == s.stamps && s'.history == s.history + [row]
    requires !HasKey(s.history, row.dispatchId, row.querySeq)
    requires row.dispatchId in s.stamps && row.querySeq < s.stamps[row.dispatchId].count
    ensures FinalOk(s', e)
  {
    CompleteStays(s.history, row, e.id, s.stamps[e.id].count);
    ResultStays(s.history, row, e.id);
    if s.stamps[e.id].source.LegalCodes? {
      var i :| 0 <= i < |s.history| && IsKey(s.history[i], e.id, 0) && s.history[i].result == e.result;
      assert s'.history[i] == s.history[i];
    }
  }

  /** The tables after a first insert of the row some worker found. */
  lemma RecordKeepsTables(s: State, s': State, row: HistoryRow)
    requires TablesOk(s)
    requires row.dispatchId in s.stamps && row.querySeq < s.stamps[row.dispatchId].count
    requires !HasKey(s.history, row.dispatchId, row.querySeq)
    requires s' == s.(history := s.history + [row], workers := s'.workers)
    ensures TablesOk(s')
  {
    assert HistoryOk(s') by {
      forall i | 0 <= i < |s.history| ensures !IsKey(s.history[i], row.dispatchId, row.querySeq) {
      }
    }
    assert IncrementsOk(s') by {
      forall d, q | s'.increments[(d, q)] > 0 ensures HasKey(s'.history, d, q) { KeyStays(s.history, row, d, q); }
    }
    assert StampsOk(s') && RowsOk(s');
    assert LogOk(s') by {
      forall i | 0 <= i < |s'.log| && s'.log[i].FinalEvent? ensures FinalOk(s', s'.log[i]) {
        FinalStays(s, s', row, s.log[i]);
      }
    }
  }

  lemma WorkerStays(s: State, s': State, row: HistoryRow, pc: Worker)
    requires WorkerOk(s, pc) && TaskOk(s, pc.task) && s'.history == s.history + [row]
    requires s'.increments == s.increments && s'.stamps == s.stamps
    requires !HasKey(s.history, row.dispatchId, row.querySeq)
    requires row.dispatchId in s.stamps && row.querySeq < s.stamps[row.dispatchId].count
    ensures WorkerOk(s', pc)
  {
    if pc.Recorded? {
      var i :| 0 <= i < |s.history| && IsKey(s.history[i], pc.task.dispatchId, pc.task.querySeq) &&
        s.history[i].candidates == pc.staged && (s.history[i].result.Error? <==> pc.errored);
      assert s'.history[i] == s.history[i];
    } else if pc.CrawlRecorded? {
      var i :| 0 <= i < |s.history| && IsKey(s.history[i], pc.task.dispatchId, pc.task.querySeq) &&
        s.history[i].result == pc.result;
      assert s'.history[i] == s.history[i];
    } else if pc.Counted? || pc.Expiring? {
      VerdictStays(s.history, row, pc.task.dispatchId, pc.counts, pc.task.queryCount);
    }
  }

  lemma CounterStays(s: State, s': State, row: HistoryRow, d: nat)
    requires d in s.counters && d in s.inCounter && CounterOk(s, d) && IncrementsOk(s)
    requires s' == s.(history := s.history + [row], workers := s'.workers)
    requires !HasKey(s.history, row.dispatchId, row.querySeq)
    ensures CounterOk(s', d)
  {
    var queries := s.inCounter[d];
    assert row.dispatchId == d ==> row.querySeq !in queries;
    AppendSum(s.history, row, d, queries, One);
    AppendSum(s.history, row, d, queries, Staged);
    AppendSum(s.history, row, d, queries, Errored);
  }

  lemma RecordKeepsWorkers(s: State, w: nat)
    requires StampsOk(s) && TasksOk(s) && WorkersOk(s) && IncrementsOk(s)
    requires w in s.workers && (s.workers[w].Swept? || s.workers[w].Crawled?)
    requires !HasKey(s.history, s.workers[w].task.dispatchId, s.workers[w].task.querySeq)
    ensures TasksOk(DoRecord(s, w)) && WorkersOk(DoRecord(s, w))
  {
    var s' := DoRecord(s, w);
    var pc := s.workers[w];
    RecordKeepsTasks(s, w);
    forall v | v in s'.workers ensures WorkerOk(s', s'.workers[v]) {
      if v != w { OtherRecords(s, w, v); } else { RecorderIsOk(s, w); }
    }
    forall v | v in s.workers && v != w && s.workers[v].Recorded?
      ensures !SameQuery(s.workers[v].task, pc.task)
    {
      RowHasKey(s, s.workers[v]);
    }
  }

  lemma RecordKeepsTasks(s: State, w: nat)
    requires TasksOk(s) && w in s.workers && (s.workers[w].Swept? || s.workers[w].Crawled?)
    ensures TasksOk(DoRecord(s, w))
  {
    var s' := DoRecord(s, w);
    forall task | task in s'.sent ensures TaskOk(s', task) { assert TaskOk(s, task); }
    forall v | v in s'.workers ensures TaskOk(s', s'.workers[v].task) { assert TaskOk(s, s.workers[v].task); }
  }

  /** Another worker is where it was, and the new row does not disturb it. */
  lemma OtherRecords(s: State, w: nat, v: nat)
    requires TasksOk(s) && WorkersOk(s) && w in s.workers && (s.workers[w].Swept? || s.workers[w].Crawled?)
    requires !HasKey(s.history, s.workers[w].task.dispatchId, s.workers[w].task.querySeq)
    requires v in s.workers && v != w
    ensures var s' := DoRecord(s, w); s'.workers[v] == s.workers[v] && WorkerOk(s', s'.workers[v])
  {
    assert TaskOk(s, s.workers[w].task) && TaskOk(s, s.workers[v].task) && WorkerOk(s, s.workers[v]);
    WorkerStays(s, DoRecord(s, w), RowOf(s.workers[w]), s.workers[v]);
  }

  /** The worker that inserted the row finds it at the end of the history. */
  lemma RecorderIsOk(s: State, w: nat)
    requires IncrementsOk(s) && w in s.workers && (s.workers[w].Swept? || s.workers[w].Crawled?)
    requires TaskOk(s, s.workers[w].task) && WorkerOk(s, s.workers[w])
    requires !HasKey(s.history, s.workers[w].task.dispatchId, s.workers[w].task.querySeq)
    ensures var s' := DoRecord(s, w); TaskOk(s', s'.workers[w].task) && WorkerOk(s', s'.workers[w])
  {
    var s' := DoRecord(s, w);
    assert IsKey(s'.history[|s.history|], s.workers[w].task.dispatchId, s.workers[w].task.querySeq);
  }

  lemma FreshRecordKeepsInv(s: State, w: nat)
    requires Inv(s) && Enabled(s, Record(w))
    requires !HasKey(s.history, s.workers[w].task.dispatchId, s.workers[w].task.querySeq)
    ensures Inv(DoRecord(s, w))
  {
    var s' := DoRecord(s, w);
    var row := RowOf(s.workers[w]);
    assert TaskOk(s, s.workers[w].task);
    RecordKeepsTables(s, s', row);
    RecordKeepsWorkers(s, w);
    OrchestratorsSame(s, s');
    RecordKeepsCounters(s, s', row);
  }

  lemma RecordKeepsCounters(s: State, s': State, row: HistoryRow)
    requires CountersOk(s) && IncrementsOk(s)
    requires s' == s.(history := s.history + [row], workers := s'.workers)
    requires !HasKey(s.history, row.dispatchId, row.querySeq)
    ensures CountersOk(s')
  {
    forall d | d in s'.counters ensures CounterOk(s', d) { CounterStays(s, s', row, d); }
  }

  lemma OrchestratorsSame(s: State, s': State)
    requires OrchestratorsOk(s) && s'.orchestrators == s.orchestrators
    requires s'.targets == s.targets && s'.stamps == s.stamps && s'.now == s.now
    ensures OrchestratorsOk(s')
  {
    forall o | o in s'.orchestrators ensures OrchestratorOk(s', s'.orchestrators[o]) {
      var pc := s.orchestrators[o];
      assert OrchestratorOk(s, pc);
      if !pc.Started? {
        forall i | 0 <= i < |pc.todo| ensures SnapshotOk(s', pc.todo[i], pc.corpus, pc.at) {
          assert SnapshotOk(s, pc.todo[i], pc.corpus, pc.at);
        }
      }
    }
  }

  lemma RecordKeepsInv(s: State, w: nat)
    requires Inv(s) && Enabled(s, Record(w))
    ensures Inv(Apply(s, Record(w)))
  {
    if HasKey(s.history, s.workers[w].task.dispatchId, s.workers[w].task.querySeq) {
      QuietWorkerKeepsInv(s, w, Deleting(s.workers[w].task));
    } else {
      FreshRecordKeepsInv(s, w);
    }
  }

  // ---- the counter increment

  /** The counter after the increment still matches the rows it has counted. */
  lemma BumpMatches(s: State, w: nat)
    requires HistoryOk(s) && CountersOk(s) && w in s.workers && s.workers[w].Recorded?
    requires TaskOk(s, s.workers[w].task) && WorkerOk(s, s.workers[w])
    ensures CounterOk(DoIncrement(s, w), s.workers[w].task.dispatchId)
  {
    var pc := s.workers[w];
    var d, q := pc.task.dispatchId, pc.task.querySeq;
    var s' := DoIncrement(s, w);
    var queries := if d in s.inCounter then s.inCounter[d] else {};
    if d in s.counters { assert CounterOk(s, d); }
    assert q !in queries;
    BumpedSums(s.history, d, queries, pc);
    if d !in s.counters { EmptySums(s.history, d); }
    assert s'.inCounter[d] == queries + {q} && s'.history == s.history && s'.stamps == s.stamps;
  }

  /** The sums after the worker's row is added to the counted ones. */
  lemma BumpedSums(history: seq<HistoryRow>, d: nat, queries: set<nat>, pc: Worker)
    requires UniqueKeys(history) && pc.Recorded? && pc.task.dispatchId == d && pc.task.querySeq !in queries
    requires exists i :: (0 <= i < |history| && IsKey(history[i], d, pc.task.querySeq) &&
      history[i].candidates == pc.staged && (history[i].result.Error? <==> pc.errored))
    ensures var more := queries + {pc.task.querySeq};
      SumOver(history, d, more, One) == SumOver(history, d, queries, One) + 1 &&
      SumOver(history, d, more, Staged) == SumOver(history, d, queries, Staged) + pc.staged &&
      SumOver(history, d, more, Errored) == SumOver(history, d, queries, Errored) + if pc.errored then 1 else 0
  {
    var i :| 0 <= i < |history| && IsKey(history[i], d, pc.task.querySeq) &&
      history[i].candidates == pc.staged && (history[i].result.Error? <==> pc.errored);
    AddAllSums(history, d, queries, i);
  }

  lemma AddAllSums(history: seq<HistoryRow>, id: nat, queries: set<nat>, i: nat)
    requires UniqueKeys(history) && i < |history|
    requires history[i].dispatchId == id && history[i].querySeq !in queries
    ensures SumOver(history, id, queries + {history[i].querySeq}, One) == SumOver(history, id, queries, One) + 1
    ensures SumOver(history, id, queries + {history[i].querySeq}, Staged) ==
      SumOver(history, id, queries, Staged) + history[i].candidates
    ensures SumOver(history, id, queries + {history[i].querySeq}, Errored) ==
      SumOver(history, id, queries, Errored) + if history[i].result.Error? then 1 else 0
  {
    AddQuery(history, id, queries, i, One);
    AddQuery(history, id, queries, i, Staged);
    AddQuery(history, id, queries, i, Errored);
  }

  lemma EmptySums(history: seq<HistoryRow>, id: nat)
    ensures SumOver(history, id, {}, One) == 0 && SumOver(history, id, {}, Staged) == 0 &&
      SumOver(history, id, {}, Errored) == 0
  {
    EmptySum(history, id, One);
    EmptySum(history, id, Staged);
    EmptySum(history, id, Errored);
  }

  lemma {:induction false} EmptySum(history: seq<HistoryRow>, id: nat, f: HistoryRow -> nat)
    ensures SumOver(history, id, {}, f) == 0
  {
    if history != [] { EmptySum(history[..|history| - 1], id, f); }
  }

  /** A counter that reached its query count has counted every query of the dispatch. */
  lemma FullCounter(s: State, d: nat)
    requires TablesOk(s) && d in s.counters && d in s.inCounter && CounterOk(s, d)
    ensures VerdictOk(s.history, d, s.counters[d], s.stamps[d].count)
  {
    var count := s.stamps[d].count;
    var queries := s.inCounter[d];
    if s.counters[d].done == count {
      forall q | q in queries ensures q < count && HasKey(s.history, d, q) {
        assert s.increments[(d, q)] > 0;
        var i :| 0 <= i < |s.history| && IsKey(s.history[i], d, q);
      }
      RangeSet(count, queries);
      SumIsTotal(s.history, d, queries, One);
      SumIsTotal(s.history, d, queries, Staged);
      SumIsTotal(s.history, d, queries, Errored);
    }
  }

  lemma IncrementKeepsWorkers(s: State, w: nat)
    requires TasksOk(s) && WorkersOk(s) && w in s.workers && s.workers[w].Recorded?
    requires VerdictOk(s.history, s.workers[w].task.dispatchId, DoIncrement(s, w).workers[w].counts,
                       s.workers[w].task.queryCount)
    ensures TasksOk(DoIncrement(s, w)) && WorkersOk(DoIncrement(s, w))
  {
    var s' := DoIncrement(s, w);
    forall task | task in s'.sent ensures TaskOk(s', task) { assert TaskOk(s, task); }
    forall v | v in s'.workers ensures TaskOk(s', s'.workers[v].task) && WorkerOk(s', s'.workers[v]) {
      assert TaskOk(s, s.workers[v].task) && WorkerOk(s, s.workers[v]);
    }
  }

  lemma IncrementKeepsCounters(s: State, w: nat)
    requires CountersOk(s) && w in s.workers && s.workers[w].Recorded?
    requires CounterOk(DoIncrement(s, w), s.workers[w].task.dispatchId)
    ensures CountersOk(DoIncrement(s, w))
  {
    var s' := DoIncrement(s, w);
    forall e | e in s'.counters ensures CounterOk(s', e) {
      if e != s.workers[w].task.dispatchId { assert CounterOk(s, e); }
    }
  }

  lemma IncrementKeepsInv(s: State, w: nat)
    requires Inv(s) && Enabled(s, Increment(w))
    ensures Inv(DoIncrement(s, w))
  {
    var s' := DoIncrement(s, w);
    var pc := s.workers[w];
    var d := pc.task.dispatchId;
    assert TaskOk(s, pc.task) && WorkerOk(s, pc);
    RowHasKey(s, pc);
    BumpMatches(s, w);
    IncrementKeepsTables(s, s', d, pc.task.querySeq);
    FullCounter(s', d);
    OrchestratorsSame(s, s');
    IncrementKeepsWorkers(s, w);
    IncrementKeepsCounters(s, w);
  }

  lemma RowHasKey(s: State, pc: Worker)
    requires WorkerOk(s, pc) && pc.Recorded?
    ensures HasKey(s.history, pc.task.dispatchId, pc.task.querySeq)
  {
  }

  lemma IncrementKeepsTables(s: State, s': State, d: nat, q: nat)
    requires TablesOk(s) && HasKey(s.history, d, q) && s.increments[(d, q)] == 0
    requires s' == s.(counters := s'.counters, inCounter := s'.inCounter, workers := s'.workers,
                      increments := s.increments + multiset{(d, q)})
    ensures TablesOk(s')
  {
    assert StampsOk(s') && RowsOk(s') && HistoryOk(s') && IncrementsOk(s');
    assert LogOk(s') by {
      forall i | 0 <= i < |s'.log| && s'.log[i].FinalEvent? ensures FinalOk(s', s'.log[i]) {
        assert FinalOk(s, s.log[i]);
      }
    }
  }

  // ---- rows: finalize, park, stamp

  lemma AppendStampAfter(log: seq<Event>, e: Event, k: nat)
    ensures StampAfter(log + [e], k) ==
      (match e
       case StampEvent(t, at, id, _) => if t == k then Some((id, at)) else StampAfter(log, k)
       case FinalEvent(t, _, _, _) => if t == k then None else StampAfter(log, k)
       case ParkEvent(t, _) => if t == k then None else StampAfter(log, k))
  {
    assert (log + [e])[..|log|] == log;
  }

  lemma AppendOver(log: seq<Event>, e: Event, d: nat)
    ensures Over(log + [e], d) <==> Over(log, d) || Ends(e, d)
  {
    var l := log + [e];
    assert l[|log|] == e;
    if Over(log, d) {
      var i :| 0 <= i < |log| && Ends(log[i], d);
      assert l[i] == log[i];
    }
    if Over(l, d) {
      var i :| 0 <= i < |l| && Ends(l[i], d);
      assert i < |log| ==> l[i] == log[i];
    }
  }

  lemma AppendEndsOnce(log: seq<Event>, e: Event)
    requires EndsOnce(log) && forall d :: Ends(e, d) ==> !Over(log, d)
    ensures EndsOnce(log + [e])
  {
  }

  /** A stamp nothing has cleared since bounds the time of the stamp the row carries now. */
  lemma {:induction false} StampSince(s: State, n: nat, i: nat)
    requires Spaced(s) && i < n <= |s.log| && s.log[i].StampEvent? && s.log[i].target in s.targets
    requires Uncleared(s.log, i, n, s.log[i].target)
    ensures StampAfter(s.log[..n], s.log[i].target).Some?
    ensures StampAfter(s.log[..n], s.log[i].target).value.1 >= s.log[i].at
  {
    var k := s.log[i].target;
    assert s.log[..n][..n - 1] == s.log[..n - 1];
    var last := s.log[n - 1];
    if n - 1 == i {
    } else if last.StampEvent? && last.target == k {
      assert Uncleared(s.log, i, n - 1, k);
    } else {
      assert !Clears(last, k);
      StampSince(s, n - 1, i);
    }
  }

  /** A row was cleared, and `e` logged it. */
  lemma ClearKeepsTables(s: State, s': State, k: nat, result: SweepResult, due: Time, e: Event)
    requires TablesOk(s) && k in s.targets
    requires (e.FinalEvent? && e.target == k && FinalOk(s, e) &&
      s.targets[k].dispatchId == Some(e.id)) || (e.ParkEvent? && e.target == k)
    requires s' == s.(targets := s.targets[k := Cleared(s.targets[k], result, due)], log := s.log + [e],
                      workers := s'.workers, orchestrators := s'.orchestrators)
    ensures TablesOk(s')
  {
    assert RowOk(s, k);
    HistoryMoved(s, s');
    ClearKeepsRows(s, s', k, result, due);
    AppendEndsOnce(s.log, e);
    ClearKeepsLog(s, s', k, e);
    ClearKeepsSpaced(s, s', e);
  }

  lemma ClearKeepsRows(s: State, s': State, k: nat, result: SweepResult, due: Time)
    requires StampsOk(s) && RowsOk(s) && k in s.targets && s'.now == s.now && s'.nextId == s.nextId
    requires s'.targets == s.targets[k := Cleared(s.targets[k], result, due)] && s'.stamps == s.stamps
    ensures StampsOk(s') && RowsOk(s')
  {
    assert RowOk(s, k);
    forall j | j in s'.targets ensures RowOk(s', j) { assert RowOk(s, j); }
  }

  lemma ClearKeepsSpaced(s: State, s': State, e: Event)
    requires Spaced(s) && !e.StampEvent? && s'.log == s.log + [e]
    requires s'.targets.Keys == s.targets.Keys && forall j :: j in s.targets ==>
      s'.targets[j].source == s.targets[j].source
    ensures Spaced(s')
  {
    forall i, j | 0 <= i < j < |s'.log| && s'.log[i].StampEvent? && s'.log[j].StampEvent? &&
      s'.log[i].target == s'.log[j].target && s'.log[i].target in s'.targets &&
      Uncleared(s'.log, i, j, s'.log[i].target)
      ensures s'.log[j].at >= s'.log[i].at + Timeout(s'.targets[s'.log[i].target].source)
    {
      UnclearedPrefix(s.log, e, i, j, s.log[i].target);
    }
  }

  lemma UnclearedPrefix(log: seq<Event>, e: Event, i: nat, j: nat, k: nat)
    requires i < j <= |log| && Uncleared(log + [e], i, j, k)
    ensures Uncleared(log, i, j, k)
  {
    forall m | 0 <= m < |log| && i < m < j ensures !Clears(log[m], k) {
      assert (log + [e])[m] == log[m];
    }
  }

  lemma ClearKeepsLog(s: State, s': State, k: nat, e: Event)
    requires LogOk(s) && RowsOk(s) && k in s.targets && k in s'.targets
    requires (e.FinalEvent? && e.target == k && FinalOk(s, e) &&
      s.targets[k].dispatchId == Some(e.id)) || (e.ParkEvent? && e.target == k)
    requires s'.log == s.log + [e] && s'.history == s.history && s'.stamps == s.stamps
    requires s'.targets == s.targets[k := s'.targets[k]] && s'.targets[k].dispatchId.None?
    ensures LogOk(s')
  {
    forall j | j in s'.targets
      ensures s'.targets[j].dispatchId.Some? ==> !Over(s'.log, s'.targets[j].dispatchId.value)
    {
      assert RowOk(s, j) && RowOk(s, k);
      if j != k && s'.targets[j].dispatchId.Some? { AppendOver(s.log, e, s'.targets[j].dispatchId.value); }
    }
    forall j | j in s'.targets
      ensures StampAfter(s'.log, j) == if j == k then None else StampAfter(s.log, j)
    {
      AppendStampAfter(s.log, e, j);
    }
    forall i | 0 <= i < |s'.log| && s'.log[i].FinalEvent? ensures FinalOk(s', s'.log[i]) {
      assert FinalOk(s, s'.log[i]);
    }
  }

  /** Clearing a row, or stamping one under a fresh id, leaves every snapshot and task as good as it was. */
  ghost predicate RowsMoved(s: State, s': State) {
    s'.targets.Keys == s.targets.Keys && s'.now == s.now &&
    (forall k :: k in s.targets ==>
      s'.targets[k].corpus == s.targets[k].corpus && s'.targets[k].source == s.targets[k].source &&
      s'.targets[k].jurisdiction == s.targets[k].jurisdiction &&
      (s'.targets[k].dispatchId.Some? && s'.targets[k].dispatchId.value in s.stamps ==>
        s'.targets[k].dispatchId == s.targets[k].dispatchId && s'.targets[k].nextDueAt == s.targets[k].nextDueAt)) &&
    (forall d :: d in s.stamps ==> d in s'.stamps && s'.stamps[d] == s.stamps[d])
  }

  lemma SnapshotsMoved(s: State, s': State, pc: Orchestrator)
    requires OrchestratorOk(s, pc) && RowsMoved(s, s')
    ensures OrchestratorOk(s', pc)
  {
    if !pc.Started? {
      forall i | 0 <= i < |pc.todo| ensures SnapshotOk(s', pc.todo[i], pc.corpus, pc.at) {
        assert SnapshotOk(s, pc.todo[i], pc.corpus, pc.at);
      }
    }
  }

  lemma TasksMoved(s: State, s': State)
    requires TasksOk(s) && RowsMoved(s, s') && s'.sent == s.sent
    requires forall w :: w in s'.workers ==> w in s.workers && s'.workers[w].task == s.workers[w].task
    ensures TasksOk(s')
  {
    forall task | task in s'.sent ensures TaskOk(s', task) { assert TaskOk(s, task); }
    forall w | w in s'.workers ensures TaskOk(s', s'.workers[w].task) { assert TaskOk(s, s.workers[w].task); }
  }

  lemma CountersMoved(s: State, s': State)
    requires CountersOk(s) && RowsMoved(s, s') && s'.history == s.history && s'.increments == s.increments
    requires s'.counters == s.counters && s'.inCounter == s.inCounter
    ensures CountersOk(s')
  {
    forall d | d in s'.counters ensures CounterOk(s', d) { assert CounterOk(s, d); }
  }

  lemma OrchestratorsMoved(s: State, s': State)
    requires OrchestratorsOk(s) && RowsMoved(s, s') && s'.orchestrators == s.orchestrators
    ensures OrchestratorsOk(s')
  {
    forall o | o in s'.orchestrators ensures OrchestratorOk(s', s'.orchestrators[o]) {
      SnapshotsMoved(s, s', s.orchestrators[o]);
    }
  }

  /** A worker is done with its row: it only has its message to delete. */
  lemma WorkersMoved(s: State, s': State, w: nat)
    requires WorkersOk(s) && w in s.workers && s'.history == s.history && s'.increments == s.increments
    requires s'.workers == s.workers[w := Deleting(s.workers[w].task)]
    ensures WorkersOk(s')
  {
    forall v | v in s'.workers ensures WorkerOk(s', s'.workers[v]) { assert WorkerOk(s, s.workers[v]); }
  }

  lemma ClearMovesRows(s: State, s': State, k: nat, result: SweepResult, due: Time)
    requires k in s.targets && s'.targets == s.targets[k := Cleared(s.targets[k], result, due)]
    requires s'.now == s.now && s'.stamps == s.stamps
    ensures RowsMoved(s, s')
  {
  }

  /** The row still carries the dispatch: it is cleared, and the log says so. */
  lemma HeldRowKeepsInv(s: State, w: nat, e: Event)
    requires Inv(s) && w in s.workers && e.FinalEvent? && FinalOk(s, e) && Holds(s.targets, e.target, e.id)
    ensures Inv(DoFinalize(s, w, e.target, e.id, e.result, e.due))
  {
    var s' := DoFinalize(s, w, e.target, e.id, e.result, e.due);
    ClearMovesRows(s, s', e.target, e.result, e.due);
    ClearKeepsTables(s, s', e.target, e.result, e.due, e);
    HeldRowKeepsRest(s, s', w);
  }

  lemma HeldRowKeepsRest(s: State, s': State, w: nat)
    requires TasksOk(s) && OrchestratorsOk(s) && WorkersOk(s) && CountersOk(s) && w in s.workers && RowsMoved(s, s')
    requires s' == s.(targets := s'.targets, log := s'.log, workers := s.workers[w := Deleting(s.workers[w].task)])
    ensures TasksOk(s') && OrchestratorsOk(s') && WorkersOk(s') && CountersOk(s')
  {
    TasksMoved(s, s');
    CountersMoved(s, s');
    OrchestratorsMoved(s, s');
    WorkersMoved(s, s', w);
  }

  lemma FinalizeKeepsInv(s: State, w: nat, e: Event)
    requires Inv(s) && w in s.workers && e.FinalEvent? && FinalOk(s, e)
    ensures Inv(DoFinalize(s, w, e.target, e.id, e.result, e.due))
  {
    if Holds(s.targets, e.target, e.id) {
      HeldRowKeepsInv(s, w, e);
    } else {
      QuietWorkerKeepsInv(s, w, Deleting(s.workers[w].task));
    }
  }

  lemma FanInKeepsInv(s: State, w: nat)
    requires Inv(s) && Enabled(s, FanIn(w))
    ensures Inv(Apply(s, FanIn(w)))
  {
    var pc := s.workers[w];
    assert TaskOk(s, pc.task) && WorkerOk(s, pc);
    if pc.counts.done != pc.task.queryCount {
      QuietWorkerKeepsInv(s, w, Deleting(pc.task));
    } else {
      var result := FanInVerdict(pc.counts, pc.task.queryCount);
      VerdictIsResult(s.history, pc.task.dispatchId, pc.counts, pc.task.queryCount);
      FinalizeKeepsInv(s, w, FinalEvent(pc.task.target, pc.task.dispatchId, result,
                                        FanInDue(result, pc.at, s.resweepDays)));
    }
  }

  lemma CrawlFinishKeepsInv(s: State, w: nat)
    requires Inv(s) && Enabled(s, CrawlFinish(w))
    ensures Inv(Apply(s, CrawlFinish(w)))
  {
    var pc := s.workers[w];
    assert TaskOk(s, pc.task) && WorkerOk(s, pc);
    var e := FinalEvent(pc.task.target, pc.task.dispatchId, pc.result, pc.due);
    CrawlComplete(s, pc);
    FinalizeKeepsInv(s, w, e);
  }

  /** A crawl is query 0 of 1, so its one row completes the dispatch. */
  lemma CrawlComplete(s: State, pc: Worker)
    requires StampsOk(s) && HistoryOk(s) && TaskOk(s, pc.task) && WorkerOk(s, pc) && pc.CrawlRecorded?
    ensures FinalOk(s, FinalEvent(pc.task.target, pc.task.dispatchId, pc.result, pc.due))
  {
    var d := pc.task.dispatchId;
    assert HasKey(s.history, d, 0);
    forall q: nat | q < 1 ensures HasKey(s.history, d, q) { assert q == 0; }
  }

  lemma ParkKeepsInv(s: State, o: nat)
    requires Inv(s) && Enabled(s, Park(o))
    ensures Inv(DoPark(s, o))
  {
    var pc := s.orchestrators[o];
    assert OrchestratorOk(s, pc);
    ParkKeepsTables(s, o);
    ParkKeepsRest(s, DoPark(s, o), o, Selected(pc.corpus, pc.at, pc.todo[1..]));
  }

  lemma ParkKeepsTables(s: State, o: nat)
    requires TablesOk(s) && Enabled(s, Park(o))
    ensures TablesOk(DoPark(s, o)) && RowsMoved(s, DoPark(s, o))
  {
    var s' := DoPark(s, o);
    var k, due := s.orchestrators[o].todo[0].id, s.orchestrators[o].at + DAY * s.resweepDays;
    ClearMovesRows(s, s', k, Error, due);
    ClearKeepsTables(s, s', k, Error, due, ParkEvent(k, due));
  }

  lemma ParkKeepsRest(s: State, s': State, o: nat, next: Orchestrator)
    requires TasksOk(s) && OrchestratorsOk(s) && WorkersOk(s) && CountersOk(s) && RowsMoved(s, s')
    requires OrchestratorOk(s, next) &&
      s' == s.(targets := s'.targets, log := s'.log, orchestrators := s.orchestrators[o := next])
    ensures TasksOk(s') && OrchestratorsOk(s') && WorkersOk(s') && CountersOk(s')
  {
    TasksMoved(s, s');
    CountersMoved(s, s');
    WorkersFrame(s, s');
    ParkKeepsOrchestrators(s, s', o, next);
  }

  lemma ParkKeepsOrchestrators(s: State, s': State, o: nat, next: Orchestrator)
    requires OrchestratorsOk(s) && RowsMoved(s, s') && OrchestratorOk(s, next) &&
      s'.orchestrators == s.orchestrators[o := next]
    ensures OrchestratorsOk(s')
  {
    forall q | q in s'.orchestrators ensures OrchestratorOk(s', s'.orchestrators[q]) {
      SnapshotsMoved(s, s', if q == o then next else s.orchestrators[q]);
    }
  }

  // ---- the stamp

  /** The stamp a winning compare-and-set writes and logs. */
  ghost predicate StampLogged(s: State, s': State, k: nat, e: Event) {
    e.StampEvent? && e.target == k && e.id == s.nextId && s'.log == s.log + [e] && s'.history == s.history &&
    k in s.targets && s.targets[k].dispatchId == e.over &&
    s'.targets.Keys == s.targets.Keys && (forall j :: j in s.targets && j != k ==> s'.targets[j] == s.targets[j]) &&
    s'.targets[k].dispatchId == Some(e.id) && s'.targets[k].dispatchedAt == Some(e.at) &&
    e.id in s'.stamps && s'.stamps[e.id].target == k && s'.stamps[e.id].at == e.at &&
    forall d :: d in s.stamps && d != e.id ==> d in s'.stamps && s'.stamps[d] == s.stamps[d]
  }

  lemma StampKeepsLog(s: State, s': State, k: nat, e: Event)
    requires StampsOk(s) && RowsOk(s) && LogOk(s) && StampLogged(s, s', k, e)
    ensures LogOk(s')
  {
    StampReplays(s, s', k, e);
    forall j | j in s'.targets && s'.targets[j].dispatchId.Some?
      ensures !Over(s'.log, s'.targets[j].dispatchId.value)
    {
      StampNotOver(s, e, j, s'.targets[j].dispatchId.value);
    }
    StampsLogged(s, s', k, e);
    FinalsStay(s, s', e);
  }

  lemma StampReplays(s: State, s': State, k: nat, e: Event)
    requires LogOk(s) && StampLogged(s, s', k, e)
    ensures forall j :: j in s'.targets ==>
      StampAfter(s'.log, j) == if s'.targets[j].dispatchId.Some? && s'.targets[j].dispatchedAt.Some?
                               then Some((s'.targets[j].dispatchId.value, s'.targets[j].dispatchedAt.value)) else None
  {
    forall j | j in s'.targets
      ensures StampAfter(s'.log, j) == if j == k then Some((e.id, e.at)) else StampAfter(s.log, j)
    {
      AppendStampAfter(s.log, e, j);
    }
  }

  /** Every logged stamp is remembered. */
  lemma StampsLogged(s: State, s': State, k: nat, e: Event)
    requires StampsOk(s) && RowsOk(s) && LogOk(s) && StampLogged(s, s', k, e)
    ensures forall i :: 0 <= i < |s'.log| && s'.log[i].StampEvent? ==>
      s'.log[i].id in s'.stamps && s'.log[i].target in s'.targets &&
      s'.stamps[s'.log[i].id].target == s'.log[i].target && s'.stamps[s'.log[i].id].at == s'.log[i].at &&
      (s'.log[i].over.Some? ==> s'.log[i].over.value in s'.stamps)
  {
    assert RowOk(s, k);
    forall i | 0 <= i < |s.log| ensures s'.log[i] == s.log[i] {}
  }

  /** A fresh stamp adds no finalization, and earlier ones stay as sound as they were. */
  lemma FinalsStay(s: State, s': State, e: Event)
    requires LogOk(s) && e.StampEvent? && s'.log == s.log + [e] && s'.history == s.history
    requires forall d :: d in s.stamps && d != e.id ==> d in s'.stamps && s'.stamps[d] == s.stamps[d]
    requires StampsOk(s) && e.id == s.nextId
    ensures forall i :: 0 <= i < |s'.log| && s'.log[i].FinalEvent? ==> FinalOk(s', s'.log[i])
  {
    forall i | 0 <= i < |s'.log| && s'.log[i].FinalEvent? ensures FinalOk(s', s'.log[i]) {
      assert FinalOk(s, s'.log[i]);
    }
  }

  /** The dispatch a row carries after the stamp, its own or the fresh one, has not ended. */
  lemma StampNotOver(s: State, e: Event, j: nat, d: nat)
    requires StampsOk(s) && RowsOk(s) && LogOk(s) && e.StampEvent? && e.id == s.nextId && e.target in s.targets
    requires s.targets[e.target].dispatchId == e.over && j in s.targets
    requires if j == e.target then d == e.id else s.targets[j].dispatchId == Some(d)
    ensures !Over(s.log + [e], d)
  {
    assert RowOk(s, j) && RowOk(s, e.target);
    AppendOver(s.log, e, d);
    if j == e.target { FreshNotOver(s, d); }
  }

  lemma FreshNotOver(s: State, d: nat)
    requires StampsOk(s) && LogOk(s) && d >= s.nextId
    ensures !Over(s.log, d)
  {
    forall i | 0 <= i < |s.log| ensures !Ends(s.log[i], d) {
      if s.log[i].FinalEvent? { assert FinalOk(s, s.log[i]); }
    }
  }

  lemma StampKeepsSpaced(s: State, s': State, k: nat, e: Event)
    requires TablesOk(s) && k in s.targets && e.StampEvent? && e.target == k
    requires s.targets[k].dispatchedAt.Some? ==> s.targets[k].dispatchedAt.value <= e.at - Timeout(s.targets[k].source)
    requires s'.log == s.log + [e] && s'.targets.Keys == s.targets.Keys
    requires forall j :: j in s.targets ==> s'.targets[j].source == s.targets[j].source
    ensures Spaced(s')
  {
    var n := |s.log|;
    forall i, j | 0 <= i < j < |s'.log| && s'.log[i].StampEvent? && s'.log[j].StampEvent? &&
      s'.log[i].target == s'.log[j].target && s'.log[i].target in s'.targets &&
      Uncleared(s'.log, i, j, s'.log[i].target)
      ensures s'.log[j].at >= s'.log[i].at + Timeout(s'.targets[s'.log[i].target].source)
    {
      UnclearedPrefix(s.log, e, i, j, s.log[i].target);
      if j == n {
        StampSince(s, n, i);
        assert s.log[..n] == s.log;
      }
    }
  }

  lemma StampKeepsRows(s: State, o: nat, count: nat)
    requires StampsOk(s) && RowsOk(s) && Enabled(s, StampRow(o, count)) && OrchestratorOk(s, s.orchestrators[o])
    requires var t := s.orchestrators[o].todo[0]; StampMatches(s.targets[t.id], t.dispatchId, t.dispatchedAt)
    ensures var s' := DoStamp(s, o, count); StampsOk(s') && RowsOk(s') && RowsMoved(s, s')
  {
    var s' := DoStamp(s, o, count);
    var pc := s.orchestrators[o];
    var t := pc.todo[0];
    assert SnapshotOk(s, t, pc.corpus, pc.at);
    assert RowOk(s, t.id);
    forall j | j in s'.targets ensures RowOk(s', j) { assert RowOk(s, j); }
  }

  lemma StampKeepsTables(s: State, o: nat, count: nat)
    requires TablesOk(s) && Enabled(s, StampRow(o, count)) && OrchestratorOk(s, s.orchestrators[o])
    requires var t := s.orchestrators[o].todo[0]; StampMatches(s.targets[t.id], t.dispatchId, t.dispatchedAt)
    ensures TablesOk(DoStamp(s, o, count))
  {
    var s' := DoStamp(s, o, count);
    var pc := s.orchestrators[o];
    var t := pc.todo[0];
    var e := StampEvent(t.id, pc.at, s.nextId, t.dispatchId);
    assert SnapshotOk(s, t, pc.corpus, pc.at);
    StampKeepsRows(s, o, count);
    assert s'.log == s.log + [e];
    StampKeepsLog(s, s', t.id, e);
    StampKeepsSpaced(s, s', t.id, e);
    AppendEndsOnce(s.log, e);
    HistoryMoved(s, s');
  }

  lemma HistoryMoved(s: State, s': State)
    requires HistoryOk(s) && IncrementsOk(s) && s'.history == s.history && s'.increments == s.increments
    requires forall d :: d in s.stamps ==> d in s'.stamps && s'.stamps[d] == s.stamps[d]
    ensures HistoryOk(s') && IncrementsOk(s')
  {
  }

  /** A compare-and-set that succeeds. */
  lemma WinKeepsInv(s: State, o: nat, count: nat)
    requires Inv(s) && Enabled(s, StampRow(o, count))
    requires var t := s.orchestrators[o].todo[0]; StampMatches(s.targets[t.id], t.dispatchId, t.dispatchedAt)
    ensures Inv(DoStamp(s, o, count))
  {
    assert OrchestratorOk(s, s.orchestrators[o]);
    StampKeepsTables(s, o, count);
    StampKeepsRows(s, o, count);
    WinKeepsRest(s, o, count);
  }

  lemma WinKeepsRest(s: State, o: nat, count: nat)
    requires TasksOk(s) && OrchestratorsOk(s) && WorkersOk(s) && CountersOk(s) && Enabled(s, StampRow(o, count))
    requires var t := s.orchestrators[o].todo[0]; StampMatches(s.targets[t.id], t.dispatchId, t.dispatchedAt)
    requires RowsMoved(s, DoStamp(s, o, count))
    ensures var s' := DoStamp(s, o, count); TasksOk(s') && OrchestratorsOk(s') && WorkersOk(s') && CountersOk(s')
  {
    var s' := DoStamp(s, o, count);
    TasksMoved(s, s');
    CountersMoved(s, s');
    WorkersFrame(s, s');
    WinKeepsOrchestrators(s, s', o);
  }

  lemma WinKeepsOrchestrators(s: State, s': State, o: nat)
    requires OrchestratorsOk(s) && RowsMoved(s, s') && o in s.orchestrators && s.orchestrators[o].Selected? &&
      |s.orchestrators[o].todo| > 0
    requires s'.orchestrators.Keys == s.orchestrators.Keys && o in s'.orchestrators
    requires forall q :: q in s.orchestrators && q != o ==> s'.orchestrators[q] == s.orchestrators[q]
    requires var pc, pc' := s.orchestrators[o], s'.orchestrators[o];
      pc'.Sending? && pc'.corpus == pc.corpus && pc'.at == pc.at && pc'.todo == pc.todo && pc'.next < pc'.count &&
      pc'.id in s'.stamps && s'.stamps[pc'.id] == Stamp(pc.todo[0].id, pc.todo[0].source, pc.at, pc'.count)
    ensures OrchestratorsOk(s')
  {
    forall q | q in s'.orchestrators ensures OrchestratorOk(s',
      s'.orchestrators[q]) { SnapshotsMoved(s, s', s.orchestrators[q]); }
  }

  lemma StampKeepsInv(s: State, o: nat, count: nat)
    requires Inv(s) && Enabled(s, StampRow(o, count))
    ensures Inv(DoStamp(s, o, count))
  {
    var pc := s.orchestrators[o];
    var t := pc.todo[0];
    if StampMatches(s.targets[t.id], t.dispatchId, t.dispatchedAt) {
      WinKeepsInv(s, o, count);
    } else {
      assert OrchestratorOk(s, pc);
      OrchestratorMoves(s, DoStamp(s, o, count), o, Selected(pc.corpus, pc.at, pc.todo[1..]));
    }
  }

  // ---- every step, every run

  predicate IsWorkerStep(step: Step) {
    step.Crash? || step.Receive? || step.ReadSwitch? || step.ReadTarget? || step.ReadHistory? || step.Sweep? ||
      step.Crawl? ||
    step.Record? || step.Increment? || step.Expire? || step.FanIn? || step.CrawlFinish? || step.Delete?
  }

  lemma WorkerStepKeepsInv(s: State, step: Step)
    requires Inv(s) && Enabled(s, step) && IsWorkerStep(step)
    ensures Inv(Apply(s, step))
  {
    if step.Crash? || step.Receive? || step.Delete? { ComeAndGoKeepsInv(s, step); }
    else if step.ReadSwitch? || step.ReadTarget? || step.ReadHistory? { GateKeepsInv(s, step); }
    else if step.Sweep? || step.Crawl? || step.Expire? { WorkKeepsInv(s, step); }
    else { WriteKeepsInv(s, step); }
  }

  lemma WriteKeepsInv(s: State, step: Step)
    requires Inv(s) && Enabled(s, step) && (step.Record? || step.Increment? || step.FanIn? || step.CrawlFinish?)
    ensures Inv(Apply(s, step))
  {
    match step
    case Record(w) => RecordKeepsInv(s, w);
    case Increment(w) => IncrementKeepsInv(s, w);
    case FanIn(w) => FanInKeepsInv(s, w);
    case CrawlFinish(w) => CrawlFinishKeepsInv(s, w);
  }

  lemma StepKeepsInv(s: State, step: Step)
    requires Inv(s) && Enabled(s, step)
    ensures Inv(Apply(s, step))
  {
    if IsWorkerStep(step) {
      WorkerStepKeepsInv(s, step);
    } else {
      match step
      case Tick(_) => EnvironmentKeepsInv(s, step);
      case Switch(_, _) => EnvironmentKeepsInv(s, step);
      case LoseCounter(_) => EnvironmentKeepsInv(s, step);
      case Stop(_) => StopKeepsInv(s, step);
      case Start(_, _) => StartKeepsInv(s, step);
      case Select(o, due, limit) => SelectKeepsInv(s, o, due, limit);
      case Skip(_) => SkipKeepsInv(s, step);
      case StampRow(o, count) => StampKeepsInv(s, o, count);
      case Park(o) => ParkKeepsInv(s, o);
      case Send(o) => SendKeepsInv(s, o);
    }
  }

  lemma {:induction false} RunKeepsInv(s: State, steps: seq<Step>)
    requires Inv(s) && ValidRun(s, steps)
    ensures Inv(Run(s, steps))
    decreases |steps|
  {
    if steps != [] {
      StepKeepsInv(s, steps[0]);
      RunKeepsInv(Apply(s, steps[0]), steps[1..]);
    }
  }
}
