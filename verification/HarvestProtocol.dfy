/** Dispatch, sweep, crawl and fan-in as one interleaved step system.

    Every store, counter and queue operation is one step. Any number of orchestrators and workers run at
    once, each is a program counter, and each may crash between any two of its steps. A queue delivers at
    least once: a worker may receive any task ever sent, as often as it likes or never, which covers loss,
    redelivery and dead-lettering. A counter may vanish at any step, which covers expiry and failover. */
module HarvestProtocol {
  import opened Options
  import opened HarvestTables

  datatype Stamp = Stamp(target: nat, source: Source, at: Time, count: nat)

  datatype Worker =
    | Received(task: Task)
    | SwitchRead(task: Task)
    | TargetRead(task: Task)
    | Gated(task: Task)
    | Swept(task: Task, at: Time, staged: nat, errored: bool)
    | Recorded(task: Task, at: Time, staged: nat, errored: bool)
    | Counted(task: Task, at: Time, counts: Counts)
    | Expiring(task: Task, at: Time, counts: Counts)
    | Crawled(task: Task, at: Time, staged: nat, result: SweepResult, due: Time)
    | CrawlRecorded(task: Task, result: SweepResult, due: Time)
    | Deleting(task: Task)

  datatype Orchestrator =
    | Started(corpus: string, at: Time)
    | Selected(corpus: string, at: Time, todo: seq<Target>)
    | Sending(corpus: string, at: Time, todo: seq<Target>, id: nat, count: nat, next: nat)

  /** The row changes that carry or clear a stamp, in the order they happened. */
  datatype Event =
    | StampEvent(target: nat, at: Time, id: nat, over: Option<nat>)
    | FinalEvent(target: nat, id: nat, result: SweepResult, due: Time)
    | ParkEvent(target: nat, due: Time)

  /** `stamps`, `inCounter`, `increments` and `log` are bookkeeping: no step's effect on the real fields reads them.
      `stamps` remembers each successful stamp, `inCounter` the queries a live counter has counted,
      `increments` every increment ever made, `log` the stamp history of the rows. */
  datatype State = State(
    resweepDays: nat, now: Time, switches: map<string, RunState>,
    targets: map<nat, Target>, history: seq<HistoryRow>, counters: map<nat, Counts>,
    sent: set<Task>, nextId: nat, workers: map<nat, Worker>, orchestrators: map<nat, Orchestrator>,
    stamps: map<nat, Stamp>, inCounter: map<nat, set<nat>>, increments: multiset<(nat, nat)>, log: seq<Event>)

  datatype Step =
    | Tick(dt: nat)
    | Switch(corpus: string, to: RunState)
    | LoseCounter(id: nat)
    | Crash(w: nat)
    | Receive(w: nat, task: Task)
    | ReadSwitch(w: nat)
    | ReadTarget(w: nat)
    | ReadHistory(w: nat)
    | Sweep(w: nat, staged: nat, errored: bool)
    | Crawl(w: nat, staged: nat, complete: bool, anyErrors: bool)
    | Record(w: nat)
    | Increment(w: nat)
    | Expire(w: nat)
    | FanIn(w: nat)
    | CrawlFinish(w: nat)
    | Delete(w: nat)
    | Stop(o: nat)
    | Start(o: nat, corpus: string)
    | Select(o: nat, due: seq<Target>, limit: nat)
    | Skip(o: nat)
    | StampRow(o: nat, count: nat)
    | Park(o: nat)
    | Send(o: nat)

  predicate At(s: State, w: nat) { w in s.workers }

  function TaskFor(t: Target, id: nat, sq: nat, count: nat): Task {
    Task(t.source, t.corpus, t.id, t.jurisdiction, id, sq, count)
  }

  ghost predicate Enabled(s: State, step: Step) {
    match step
    case Tick(_) => true
    case Switch(_, _) => true
    case LoseCounter(_) => true
    case Crash(w) => true
    case Receive(w, task) => w !in s.workers && task in s.sent
    case ReadSwitch(w) => At(s, w) && s.workers[w].Received?
    case ReadTarget(w) => At(s, w) && s.workers[w].SwitchRead?
    case ReadHistory(w) => At(s, w) && s.workers[w].TargetRead?
    case Sweep(w, _, _) => At(s, w) && s.workers[w].Gated? && s.workers[w].task.source.Serper?
    case Crawl(w, _, _, _) => At(s, w) && s.workers[w].Gated? && s.workers[w].task.source.LegalCodes?
    case Record(w) => At(s, w) && (s.workers[w].Swept? || s.workers[w].Crawled?)
    case Increment(w) => At(s, w) && s.workers[w].Recorded?
    case Expire(w) => At(s, w) && s.workers[w].Counted?
    case FanIn(w) => At(s, w) && s.workers[w].Expiring?
    case CrawlFinish(w) => At(s, w) && s.workers[w].CrawlRecorded?
    case Delete(w) => At(s, w) && s.workers[w].Deleting?
    case Stop(o) => true
    case Start(o, corpus) => o !in s.orchestrators && corpus in s.switches && s.switches[corpus].Running?
    case Select(o, due, limit) =>
      o in s.orchestrators && s.orchestrators[o].Started? &&
      IsDueList(s.targets, s.orchestrators[o].corpus, s.orchestrators[o].at, due)
    case Skip(o) => o in s.orchestrators && !s.orchestrators[o].Started? && |s.orchestrators[o].todo| > 0
    case StampRow(o, count) =>
      o in s.orchestrators && s.orchestrators[o].Selected? && |s.orchestrators[o].todo| > 0 &&
      s.orchestrators[o].todo[0].id in s.targets &&
      (if s.orchestrators[o].todo[0].source.Serper? then count >= 1 else count == 1)
    case Park(o) =>
      o in s.orchestrators && s.orchestrators[o].Selected? && |s.orchestrators[o].todo| > 0 &&
      s.orchestrators[o].todo[0].id in s.targets && s.orchestrators[o].todo[0].source.LegalCodes?
    case Send(o) =>
      o in s.orchestrators && s.orchestrators[o].Sending? && |s.orchestrators[o].todo| > 0 &&
      s.orchestrators[o].next < s.orchestrators[o].count
  }

  // ---- worker steps

  function AfterSwitch(s: State, task: Task): Worker {
    if task.corpus in s.switches && s.switches[task.corpus].Running? then SwitchRead(task) else Deleting(task)
  }

  /** The code gate has no history check; the sweep gate reads the history next. */
  function AfterTarget(s: State, task: Task): Worker {
    if !Holds(s.targets, task.target, task.dispatchId) then Deleting(task)
    else if task.source.Serper? then TargetRead(task) else Gated(task)
  }

  function AfterHistory(s: State, task: Task): Worker {
    if HasRow(s.history, task.corpus, task.jurisdiction, task.dispatchId, task.querySeq) then Deleting(task)
    else Gated(task)
  }

  function AfterCrawl(s: State, task: Task, staged: nat, complete: bool, anyErrors: bool): Worker {
    var (result, retry) := CrawlVerdict(staged, complete, anyErrors);
    Crawled(task, s.now, staged, result, CrawlDue(retry, s.now, s.resweepDays))
  }

  function RowOf(w: Worker): HistoryRow
    requires w.Swept? || w.Crawled?
  {
    var result := if w.Swept? then QueryResult(w.staged, w.errored) else w.result;
    HistoryRow(w.task.corpus, w.task.jurisdiction, w.task.source, w.task.dispatchId, w.task.querySeq,
               result, w.staged, w.at)
  }

  function DoRecord(s: State, w: nat): State
    requires w in s.workers && (s.workers[w].Swept? || s.workers[w].Crawled?)
  {
    var pc := s.workers[w];
    var row := RowOf(pc);
    var next :=
      if HasKey(s.history, row.dispatchId, row.querySeq) then Deleting(pc.task)
      else if pc.Swept? then Recorded(pc.task, pc.at, pc.staged, pc.errored)
      else CrawlRecorded(pc.task, pc.result, pc.due);
    s.(history := InsertHistory(s.history, row), workers := s.workers[w := next])
  }

  function DoIncrement(s: State, w: nat): State
    requires w in s.workers && s.workers[w].Recorded?
  {
    var pc := s.workers[w];
    var id := pc.task.dispatchId;
    var counters := Bump(s.counters, id, pc.staged, pc.errored);
    var counted := if id in s.inCounter then s.inCounter[id] else {};
    s.(counters := counters,
       workers := s.workers[w := Counted(pc.task, pc.at, counters[id])],
       inCounter := s.inCounter[id := counted + {pc.task.querySeq}],
       increments := s.increments + multiset{(id, pc.task.querySeq)})
  }

  function DoFinalize(s: State, w: nat, target: nat, id: nat, result: SweepResult, due: Time): State
    requires w in s.workers
  {
    s.(targets := Finalize(s.targets, target, id, result, due),
       workers := s.workers[w := Deleting(s.workers[w].task)],
       log := if Holds(s.targets, target, id) then s.log + [FinalEvent(target, id, result, due)] else s.log)
  }

  function DoFanIn(s: State, w: nat): State
    requires w in s.workers && s.workers[w].Expiring?
  {
    var pc := s.workers[w];
    if pc.counts.done != pc.task.queryCount then s.(workers := s.workers[w := Deleting(pc.task)])
    else
      var result := FanInVerdict(pc.counts, pc.task.queryCount);
      DoFinalize(s, w, pc.task.target, pc.task.dispatchId, result, FanInDue(result, pc.at, s.resweepDays))
  }

  // ---- orchestrator steps

  function Moved(s: State, o: nat, pc: Orchestrator): State {
    s.(orchestrators := s.orchestrators[o := pc])
  }

  function DoStamp(s: State, o: nat, count: nat): State
    requires Enabled(s, StampRow(o, count))
  {
    var pc := s.orchestrators[o];
    var t := pc.todo[0];
    var row := s.targets[t.id];
    if !StampMatches(row, t.dispatchId, t.dispatchedAt) then Moved(s, o, Selected(pc.corpus, pc.at, pc.todo[1..]))
    else
      Moved(s, o, Sending(pc.corpus, pc.at, pc.todo, s.nextId, count, 0)).(
        targets := s.targets[t.id := Stamped(row, pc.at, s.nextId, count)],
        nextId := s.nextId + 1,
        stamps := s.stamps[s.nextId := Stamp(t.id, t.source, pc.at, count)],
        log := s.log + [StampEvent(t.id, pc.at, s.nextId, t.dispatchId)])
  }

  function DoPark(s: State, o: nat): State
    requires Enabled(s, Park(o))
  {
    var pc := s.orchestrators[o];
    var t := pc.todo[0];
    Moved(s, o, Selected(pc.corpus, pc.at, pc.todo[1..])).(
      targets := s.targets[t.id := Cleared(s.targets[t.id], Error, pc.at + DAY * s.resweepDays)],
      log := s.log + [ParkEvent(t.id, pc.at + DAY * s.resweepDays)])
  }

  function DoSend(s: State, o: nat): State
    requires Enabled(s, Send(o))
  {
    var pc := s.orchestrators[o];
    Moved(s, o, if pc.next + 1 < pc.count then pc.(next := pc.next + 1)
                else Selected(pc.corpus, pc.at, pc.todo[1..])).(
      sent := s.sent + {TaskFor(pc.todo[0], pc.id, pc.next, pc.count)})
  }

  function Apply(s: State, step: Step): State
    requires Enabled(s, step)
  {
    match step
    case Tick(dt) => s.(now := s.now + dt)
    case Switch(corpus, to) => s.(switches := s.switches[corpus := to])
    case LoseCounter(id) => s.(counters := s.counters - {id}, inCounter := s.inCounter - {id})
    case Crash(w) => s.(workers := s.workers - {w})
    case Receive(w, task) => s.(workers := s.workers[w := Received(task)])
    case ReadSwitch(w) => s.(workers := s.workers[w := AfterSwitch(s, s.workers[w].task)])
    case ReadTarget(w) => s.(workers := s.workers[w := AfterTarget(s, s.workers[w].task)])
    case ReadHistory(w) => s.(workers := s.workers[w := AfterHistory(s, s.workers[w].task)])
    case Sweep(w, staged, errored) =>
      s.(workers := s.workers[w := Swept(s.workers[w].task, s.now, staged, errored)])
    case Crawl(w, staged, complete, anyErrors) =>
      s.(workers := s.workers[w := AfterCrawl(s, s.workers[w].task, staged, complete, anyErrors)])
    case Record(w) => DoRecord(s, w)
    case Increment(w) => DoIncrement(s, w)
    case Expire(w) =>
      s.(workers := s.workers[w := Expiring(s.workers[w].task, s.workers[w].at, s.workers[w].counts)])
    case FanIn(w) => DoFanIn(s, w)
    case CrawlFinish(w) =>
      var pc := s.workers[w];
      DoFinalize(s, w, pc.task.target, pc.task.dispatchId, pc.result, pc.due)
    case Delete(w) => s.(workers := s.workers - {w})
    case Stop(o) => s.(orchestrators := s.orchestrators - {o})
    case Start(o, corpus) => Moved(s, o, Started(corpus, s.now))
    case Select(o, due, limit) =>
      Moved(s, o, Selected(s.orchestrators[o].corpus, s.orchestrators[o].at, Take(due, limit)))
    case Skip(o) =>
      Moved(s, o, Selected(s.orchestrators[o].corpus, s.orchestrators[o].at, s.orchestrators[o].todo[1..]))
    case StampRow(o, count) => DoStamp(s, o, count)
    case Park(o) => DoPark(s, o)
    case Send(o) => DoSend(s, o)
  }

  // ---- runs

  /** A corpus freshly seeded: rows under their own ids, nothing stamped, sent, counted or recorded. */
  ghost predicate Init(s: State) {
    (forall k :: k in s.targets ==>
      s.targets[k].id == k && s.targets[k].dispatchId.None? && s.targets[k].dispatchedAt.None? &&
      s.targets[k].queryCount.None?) &&
    s.history == [] && s.counters == map[] && s.sent == {} && s.workers == map[] && s.orchestrators == map[] &&
    s.stamps == map[] && s.inCounter == map[] && s.increments == multiset{} && s.log == []
  }

  ghost predicate ValidRun(s: State, steps: seq<Step>)
    decreases |steps|
  {
    steps == [] || (Enabled(s, steps[0]) && ValidRun(Apply(s, steps[0]), steps[1..]))
  }

  ghost function Run(s: State, steps: seq<Step>): State
    requires ValidRun(s, steps)
    decreases |steps|
  {
    if steps == [] then s else Run(Apply(s, steps[0]), steps[1..])
  }
}
