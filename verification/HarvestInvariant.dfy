/** The inductive invariant of the dispatch, sweep and fan-in protocol. */
module HarvestInvariant {
  import opened Options
  import opened HarvestTables
  import opened HarvestProtocol
  import opened HistorySums

  // ---- stamps and tasks

  ghost predicate StampsOk(s: State) {
    forall d :: d in s.stamps ==>
      d < s.nextId && s.stamps[d].count >= 1 && s.stamps[d].at <= s.now &&
      s.stamps[d].target in s.targets && s.targets[s.stamps[d].target].source == s.stamps[d].source &&
      (s.stamps[d].source.LegalCodes? ==> s.stamps[d].count == 1)
  }

  /** A sweep or crawl message was sent under a stamp that succeeded, and carries that stamp's query count. */
  ghost predicate TaskOk(s: State, task: Task) {
    task.dispatchId in s.stamps && task.target in s.targets &&
    s.stamps[task.dispatchId].target == task.target &&
    s.stamps[task.dispatchId].source == task.source &&
    s.stamps[task.dispatchId].count == task.queryCount &&
    task.querySeq < task.queryCount &&
    s.targets[task.target].corpus == task.corpus && s.targets[task.target].jurisdiction == task.jurisdiction
  }

  ghost predicate TasksOk(s: State) {
    (forall task :: task in s.sent ==> TaskOk(s, task)) &&
    (forall w :: w in s.workers ==> TaskOk(s, s.workers[w].task))
  }

  /** A row's three stamp columns are set together, by the stamp that carries its dispatch id. */
  ghost predicate RowOk(s: State, k: nat)
    requires k in s.targets
  {
    var t := s.targets[k];
    t.id == k &&
    (t.dispatchId.Some? <==> t.dispatchedAt.Some?) && (t.dispatchId.Some? <==> t.queryCount.Some?) &&
    (t.dispatchId.Some? ==>
      t.dispatchId.value in s.stamps &&
      s.stamps[t.dispatchId.value] == Stamp(k, t.source, t.dispatchedAt.value, t.queryCount.value))
  }

  ghost predicate RowsOk(s: State) {
    forall k :: k in s.targets ==> RowOk(s, k)
  }

  /** An orchestrator's snapshot of a due row: the columns that never change are current, it was due,
      and its due time is current for as long as the row carries the same stamp. */
  ghost predicate SnapshotOk(s: State, t: Target, corpus: string, at: Time) {
    t.id in s.targets && t.corpus == corpus && Due(t, corpus, at) &&
    s.targets[t.id].corpus == t.corpus && s.targets[t.id].jurisdiction == t.jurisdiction &&
    s.targets[t.id].source == t.source &&
    (t.dispatchId.Some? <==> t.dispatchedAt.Some?) &&
    (t.dispatchId.Some? ==>
      t.dispatchId.value in s.stamps && s.stamps[t.dispatchId.value].target == t.id &&
      s.stamps[t.dispatchId.value].at == t.dispatchedAt.value &&
      (s.targets[t.id].dispatchId == t.dispatchId ==> s.targets[t.id].nextDueAt == t.nextDueAt))
  }

  ghost predicate OrchestratorOk(s: State, pc: Orchestrator) {
    pc.at <= s.now &&
    (!pc.Started? ==> forall i :: 0 <= i < |pc.todo| ==> SnapshotOk(s, pc.todo[i], pc.corpus, pc.at)) &&
    (pc.Sending? ==>
      |pc.todo| > 0 && pc.next < pc.count && pc.id in s.stamps &&
      s.stamps[pc.id] == Stamp(pc.todo[0].id, pc.todo[0].source, pc.at, pc.count))
  }

  ghost predicate OrchestratorsOk(s: State) {
    forall o :: o in s.orchestrators ==> OrchestratorOk(s, s.orchestrators[o])
  }

  // ---- history and counters

  ghost predicate HistoryOk(s: State) {
    UniqueKeys(s.history) &&
    forall i :: 0 <= i < |s.history| ==>
      s.history[i].dispatchId in s.stamps &&
      s.history[i].querySeq < s.stamps[s.history[i].dispatchId].count
  }

  /** The history row of a query holds what its worker found. */
  ghost predicate HasResult(history: seq<HistoryRow>, task: Task, staged: nat, errored: bool) {
    exists i :: 0 <= i < |history| && IsKey(history[i], task.dispatchId, task.querySeq) &&
      history[i].candidates == staged && (history[i].result.Error? <==> errored)
  }

  ghost predicate HasCrawlResult(history: seq<HistoryRow>, task: Task, result: SweepResult) {
    exists i :: 0 <= i < |history| && IsKey(history[i], task.dispatchId, task.querySeq) &&
      history[i].result == result
  }

  ghost predicate CountsMatch(c: Counts, history: seq<HistoryRow>, id: nat) {
    c.candidates == Total(history, id, Staged) && c.errors == Total(history, id, Errored)
  }

  /** A counter that reached its query count has counted every row of a complete dispatch. */
  ghost predicate VerdictOk(history: seq<HistoryRow>, id: nat, c: Counts, count: nat) {
    c.done == count ==>
      Complete(history, id, count) && CountsMatch(c, history, id) && Total(history, id, One) == count
  }

  ghost predicate WorkerOk(s: State, pc: Worker) {
    (pc.Swept? || pc.TargetRead? || pc.Recorded? || pc.Counted? || pc.Expiring? ==> pc.task.source.Serper?) &&
    (pc.Crawled? || pc.CrawlRecorded? ==> pc.task.source.LegalCodes?) &&
    (pc.Recorded? ==>
      HasResult(s.history, pc.task, pc.staged, pc.errored) &&
      s.increments[(pc.task.dispatchId, pc.task.querySeq)] == 0) &&
    (pc.CrawlRecorded? ==> HasCrawlResult(s.history, pc.task, pc.result)) &&
    (pc.Counted? || pc.Expiring? ==> VerdictOk(s.history, pc.task.dispatchId, pc.counts, pc.task.queryCount))
  }

  predicate SameQuery(a: Task, b: Task) {
    a.dispatchId == b.dispatchId && a.querySeq == b.querySeq
  }

  ghost predicate WorkersOk(s: State) {
    (forall w :: w in s.workers ==> WorkerOk(s, s.workers[w])) &&
    (forall w, v :: w in s.workers && v in s.workers && w != v && s.workers[w].Recorded? && s.workers[v].Recorded? ==>
      !SameQuery(s.workers[w].task, s.workers[v].task))
  }

  ghost predicate IncrementsOk(s: State) {
    forall d, q :: s.increments[(d, q)] <= 1 && (s.increments[(d, q)] > 0 ==> HasKey(s.history, d, q))
  }

  ghost predicate CounterOk(s: State, d: nat)
    requires d in s.counters && d in s.inCounter
  {
    var queries := s.inCounter[d];
    d in s.stamps &&
    (forall q :: q in queries ==> s.increments[(d, q)] > 0) &&
    s.counters[d].done == |queries| &&
    s.counters[d].done == SumOver(s.history, d, queries, One) &&
    s.counters[d].candidates == SumOver(s.history, d, queries, Staged) &&
    s.counters[d].errors == SumOver(s.history, d, queries, Errored)
  }

  ghost predicate CountersOk(s: State) {
    s.counters.Keys == s.inCounter.Keys &&
    forall d :: d in s.counters ==> CounterOk(s, d)
  }

  // ---- the log

  /** The stamp a row carries after `log`: the last event on the row decides. */
  ghost function StampAfter(log: seq<Event>, k: nat): Option<(nat, Time)> {
    if log == [] then None
    else
      match log[|log| - 1]
      case StampEvent(t, at, id, _) => if t == k then Some((id, at)) else StampAfter(log[..|log| - 1], k)
      case FinalEvent(t, _, _, _) => if t == k then None else StampAfter(log[..|log| - 1], k)
      case ParkEvent(t, _) => if t == k then None else StampAfter(log[..|log| - 1], k)
  }

  /** Dispatch `d` is over: some later event replaced or cleared its stamp. */
  ghost predicate Over(log: seq<Event>, d: nat) {
    exists i :: 0 <= i < |log| && Ends(log[i], d)
  }

  predicate Ends(e: Event, d: nat) {
    (e.StampEvent? && e.over == Some(d)) || (e.FinalEvent? && e.id == d)
  }

  /** The result a finalization wrote is the one its complete set of history rows calls for. */
  ghost predicate FinalOk(s: State, e: Event)
    requires e.FinalEvent?
  {
    e.id in s.stamps && s.stamps[e.id].target == e.target &&
    Complete(s.history, e.id, s.stamps[e.id].count) &&
    (s.stamps[e.id].source.Serper? ==> e.result == ResultOf(s.history, e.id)) &&
    (s.stamps[e.id].source.LegalCodes? ==>
      exists i :: 0 <= i < |s.history| && IsKey(s.history[i], e.id, 0) && s.history[i].result == e.result)
  }

  ghost predicate LogOk(s: State) {
    (forall k :: k in s.targets ==>
      StampAfter(s.log, k) == if s.targets[k].dispatchId.Some? && s.targets[k].dispatchedAt.Some?
                              then Some((s.targets[k].dispatchId.value, s.targets[k].dispatchedAt.value)) else None) &&
    (forall k :: k in s.targets && s.targets[k].dispatchId.Some? ==> !Over(s.log, s.targets[k].dispatchId.value)) &&
    (forall i :: 0 <= i < |s.log| && s.log[i].StampEvent? ==>
      s.log[i].id in s.stamps && s.log[i].target in s.targets &&
      s.stamps[s.log[i].id].target == s.log[i].target && s.stamps[s.log[i].id].at == s.log[i].at &&
      (s.log[i].over.Some? ==> s.log[i].over.value in s.stamps)) &&
    (forall i :: 0 <= i < |s.log| && s.log[i].FinalEvent? ==> FinalOk(s, s.log[i]))
  }

  predicate Clears(e: Event, k: nat) {
    (e.FinalEvent? || e.ParkEvent?) && e.target == k
  }

  ghost predicate Uncleared(log: seq<Event>, i: int, j: int, k: nat) {
    forall m :: 0 <= m < |log| && i < m < j ==> !Clears(log[m], k)
  }

  /** Two stamps of one row with nothing clearing it between them are its source's timeout apart. */
  ghost predicate Spaced(s: State) {
    forall i, j ::
      (0 <= i < j < |s.log| && s.log[i].StampEvent? && s.log[j].StampEvent? &&
       s.log[i].target == s.log[j].target && s.log[i].target in s.targets &&
       Uncleared(s.log, i, j, s.log[i].target)) ==>
      s.log[j].at >= s.log[i].at + Timeout(s.targets[s.log[i].target].source)
  }

  /** At most one event replaces or finalizes any one stamp. */
  ghost predicate EndsOnce(log: seq<Event>) {
    forall i, j, d :: 0 <= i < j < |log| ==> !(Ends(log[i], d) && Ends(log[j], d))
  }

  /** What concerns the tables and the log alone. */
  ghost predicate TablesOk(s: State) {
    StampsOk(s) && RowsOk(s) && HistoryOk(s) && IncrementsOk(s) && LogOk(s) && Spaced(s) && EndsOnce(s.log)
  }

  ghost predicate Inv(s: State) {
    TablesOk(s) && TasksOk(s) && OrchestratorsOk(s) && WorkersOk(s) && CountersOk(s)
  }

  lemma InitInv(s: State)
    requires Init(s)
    ensures Inv(s)
  {
  }
}
