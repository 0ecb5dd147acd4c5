/** The harvester's rows and the row operations of its datastore, as values.
    The in-place classes and the interleaving protocol are both stated over these functions. */
module HarvestTables {
  import opened Options

  type Time = int

  const DAY: Time := 86400
  const DISPATCH_TIMEOUT: Time := 1800
  const CODE_DISPATCH_TIMEOUT: Time := 7200
  const ERROR_RETRY_DAYS: nat := 1

  datatype Source = Serper | LegalCodes
  datatype SweepResult = Candidates | NotFound | Error
  datatype RunState = Running | Stopped

  datatype Target = Target(
    id: nat, corpus: string, jurisdiction: nat, source: Source, priority: int, nextDueAt: Time,
    lastResult: Option<SweepResult>, dispatchedAt: Option<Time>, dispatchId: Option<nat>, queryCount: Option<nat>)

  datatype HistoryRow = HistoryRow(
    corpus: string, jurisdiction: nat, source: Source, dispatchId: nat, querySeq: nat,
    result: SweepResult, candidates: nat, sweptAt: Time)

  datatype Counts = Counts(done: nat, candidates: nat, errors: nat)

  /** A sweep task, or a code task (which carries no sequence: its crawl is query 0 of 1). */
  datatype Task = Task(
    source: Source, corpus: string, target: nat, jurisdiction: nat,
    dispatchId: nat, querySeq: nat, queryCount: nat)

  function Timeout(source: Source): Time {
    match source
    case Serper => DISPATCH_TIMEOUT
    case LegalCodes => CODE_DISPATCH_TIMEOUT
  }

  // ---- sweep targets

  predicate Due(t: Target, corpus: string, now: Time) {
    t.corpus == corpus && t.nextDueAt <= now &&
    (t.dispatchedAt.Some? ==> t.dispatchedAt.value <= now - Timeout(t.source))
  }

  /** The dispatch order: priority, then due time, then id. */
  predicate Before(a: Target, b: Target) {
    a.priority < b.priority ||
    (a.priority == b.priority && (a.nextDueAt < b.nextDueAt || (a.nextDueAt == b.nextDueAt && a.id < b.id)))
  }

  ghost predicate Sorted(ts: seq<Target>) {
    forall i, j :: 0 <= i < j < |ts| ==> Before(ts[i], ts[j])
  }

  /** `due` lists exactly the due rows of the corpus, in dispatch order. */
  ghost predicate IsDueList(targets: map<nat, Target>, corpus: string, now: Time, due: seq<Target>) {
    Sorted(due) &&
    (forall i :: 0 <= i < |due| ==>
      due[i].id in targets && targets[due[i].id] == due[i] && Due(due[i], corpus, now)) &&
    (forall k :: k in targets && Due(targets[k], corpus, now) ==> targets[k] in due)
  }

  function Take<T>(s: seq<T>, limit: nat): seq<T> {
    if |s| <= limit then s else s[..limit]
  }

  predicate StampMatches(t: Target, id: Option<nat>, at: Option<Time>) {
    t.dispatchId == id && t.dispatchedAt == at
  }

  function Stamped(t: Target, at: Time, id: nat, count: nat): Target {
    t.(dispatchedAt := Some(at), dispatchId := Some(id), queryCount := Some(count))
  }

  function Cleared(t: Target, result: SweepResult, due: Time): Target {
    t.(lastResult := Some(result), nextDueAt := due, dispatchedAt := None, dispatchId := None, queryCount := None)
  }

  predicate Holds(targets: map<nat, Target>, target: nat, id: nat) {
    target in targets && targets[target].dispatchId == Some(id)
  }

  /** Finalization: a no-op unless the row still carries this dispatch. */
  function Finalize(targets: map<nat, Target>, target: nat, id: nat, result: SweepResult, due: Time): map<nat, Target> {
    if Holds(targets, target, id) then targets[target := Cleared(targets[target], result, due)] else targets
  }

  // ---- sweep history

  predicate IsKey(row: HistoryRow, id: nat, sq: nat) {
    row.dispatchId == id && row.querySeq == sq
  }

  predicate HasKey(history: seq<HistoryRow>, id: nat, sq: nat) {
    exists i :: 0 <= i < |history| && IsKey(history[i], id, sq)
  }

  /** What the sweep gate asks: a row with this key among the rows of the message's jurisdiction. */
  predicate HasRow(history: seq<HistoryRow>, corpus: string, jurisdiction: nat, id: nat, sq: nat) {
    exists i :: 0 <= i < |history| && IsKey(history[i], id, sq) &&
      history[i].corpus == corpus && history[i].jurisdiction == jurisdiction
  }

  function InsertHistory(history: seq<HistoryRow>, row: HistoryRow): seq<HistoryRow> {
    if HasKey(history, row.dispatchId, row.querySeq) then history else history + [row]
  }

  // ---- the fan-in counter

  function Bump(counters: map<nat, Counts>, id: nat, staged: nat, errored: bool): map<nat, Counts> {
    var c := if id in counters then counters[id] else Counts(0, 0, 0);
    counters[id := Counts(c.done + 1, c.candidates + staged, c.errors + if errored then 1 else 0)]
  }

  /** The worker's reading of the aggregated counter. */
  function FanInVerdict(c: Counts, queryCount: nat): SweepResult {
    if c.errors >= queryCount && c.candidates == 0 then Error
    else if c.candidates > 0 then Candidates
    else NotFound
  }

  function FanInDue(result: SweepResult, at: Time, resweepDays: nat): Time {
    at + DAY * (if result.Error? then ERROR_RETRY_DAYS else resweepDays)
  }

  /** A sweep query's own history result. */
  function QueryResult(staged: nat, errored: bool): SweepResult {
    if errored then Error else if staged > 0 then Candidates else NotFound
  }

  /** A crawl's result and whether it retries in a day rather than at the resweep interval. */
  function CrawlVerdict(staged: nat, complete: bool, anyErrors: bool): (SweepResult, bool) {
    if anyErrors && staged == 0 && complete then (Error, true)
    else if !complete then (if staged > 0 then Candidates else Error, true)
    else (if staged > 0 then Candidates else NotFound, false)
  }

  function CrawlDue(retry: bool, at: Time, resweepDays: nat): Time {
    at + DAY * (if retry then ERROR_RETRY_DAYS else resweepDays)
  }
}
