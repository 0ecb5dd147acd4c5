/** The code worker: one crawl of a jurisdiction's portals, which finalizes its own dispatch. */
module Crawling {
  import opened Options
  import opened HarvestTables
  import opened HarvestProtocol
  import opened HarvestWorld
  import Sweeping
  import ArtifactStore
  import Staging

  /** What one publisher group brings: the deadline passed before it, the portal is unreachable for now, the portal
      failed, or candidates, perhaps cut short. */
  datatype Portal = DeadlineHit | Transient | PortalFailed | Found(urls: seq<string>, complete: bool)

  datatype Progress = Progress(staging: Staging.Tables, staged: nat, complete: bool, errors: bool)

  /** The crawl over the first `n` groups; a deadline or a transient failure ends it early. */
  function Visit(c: Progress, corpus: string, p: Portal, at: Time): Progress {
    match p
    case DeadlineHit => c.(complete := false)
    case Transient => c
    case PortalFailed => c.(errors := true)
    case Found(urls, complete) =>
      var (staging, n) := Staging.StageMany(c.staging, corpus, urls, at);
      Progress(staging, c.staged + n, c.complete && complete, c.errors)
  }

  function Visits(t: Staging.Tables, corpus: string, portals: seq<Portal>, n: nat, at: Time): Progress
    requires n <= |portals|
  {
    if n == 0 then Progress(t, 0, true, false) else Visit(Visits(t, corpus, portals, n - 1, at), corpus,
      portals[n - 1], at)
  }

  /** The first group that ends the crawl, or all of them. */
  predicate Ends(p: Portal) { p.DeadlineHit? || p.Transient? }

  ghost predicate Stop(portals: seq<Portal>, n: nat) {
    n <= |portals| && (forall i :: 0 <= i < n - 1 ==> !Ends(portals[i])) &&
      (n < |portals| ==> n > 0 && Ends(portals[n - 1]))
  }

  predicate Open(s: State, task: Task) {
    task.corpus in s.switches && s.switches[task.corpus].Running? && Holds(s.targets, task.target, task.dispatchId)
  }

  ghost method PassGate(w: World, r: nat, task: Task)
    requires w.Valid() && r !in w.workers && task in w.sent && task.source.LegalCodes?
    modifies w`workers, w`orchestrators, w`stamps, w`inCounter, w`increments, w`log
    ensures w.Valid() && Sweeping.Stands(old(w.View()), w.View(), r,
      if Open(old(w.View()), task) then Gated(task) else Deleting(task))
  {
    Sweeping.Move(w, r, Receive(r, task), Received(task));
    var pc := AfterSwitch(w.View(), task);
    Sweeping.Move(w, r, ReadSwitch(r), pc);
    if pc.SwitchRead? { ReadRow(w, r, task); }
  }

  ghost method ReadRow(w: World, r: nat, task: Task)
    requires w.Valid() && r in w.workers && w.workers[r] == SwitchRead(task) && task.source.LegalCodes?
    modifies w`workers, w`orchestrators, w`stamps, w`inCounter, w`increments, w`log
    ensures w.Valid() && Sweeping.Stands(old(w.View()), w.View(), r,
      if Holds(w.targets, task.target, task.dispatchId) then Gated(task) else Deleting(task))
  {
    Sweeping.Move(w, r, ReadTarget(r), AfterTarget(w.View(), task));
  }

  /** The code gate reads switch and target only. */
  method GateCode(w: World, ghost r: nat, task: Task) returns (open: bool)
    requires w.Valid() && r !in w.workers && task in w.sent && task.source.LegalCodes?
    modifies w`workers, w`orchestrators, w`stamps, w`inCounter, w`increments, w`log
    ensures w.Valid() && open == Open(old(w.View()), task)
    ensures w.View() == old(w.View()).(workers := if open then old(w.workers)[r := Gated(task)] else old(w.workers))
  {
    open := false;
    if task.corpus in w.switches && w.switches[task.corpus].Running? {
      open := task.target in w.targets && w.targets[task.target].dispatchId == Some(task.dispatchId);
    }
    PassGate(w, r, task);
    if !open {
      Sweeping.Drop(w, r);
      assert w.workers == old(w.workers);
    }
  }

  /** Visits the groups in order, staging what each brings. */
  method CrawlPortals(st: ArtifactStore.Store, corpus: string, portals: seq<Portal>, at: Time)
    returns (staged: nat, complete: bool, errors: bool, transient: bool, n: nat)
    requires st.Valid()
    modifies st`artifacts, st`nextId, st`inserted, st`keys, st`nextDispatch, st`published
    ensures st.Valid() && Stop(portals, n)
    ensures Progress(st.View(), staged, complete, errors) == Visits(old(st.View()), corpus, portals, n, at)
    ensures transient == (n > 0 && portals[n - 1].Transient?)
  {
    staged, complete, errors, transient, n := 0, true, false, false, 0;
    while n < |portals|
      invariant n <= |portals| && st.Valid() && forall i :: 0 <= i < n ==> !Ends(portals[i])
      invariant Progress(st.View(), staged, complete, errors) == Visits(old(st.View()), corpus, portals, n, at)
    {
      n := n + 1;
      match portals[n - 1]
      case DeadlineHit =>
        complete := false;
        return;
      case Transient =>
        transient := true;
        return;
      case PortalFailed =>
        errors := true;
      case Found(urls, whole) =>
        var more := ArtifactStore.StageAll(st, corpus, urls, at);
        staged := staged + more;
        if !whole { complete := false; }
    }
  }

  /** A failed portal with nothing staged retries tomorrow as an error; a truncated crawl resumes tomorrow; a complete
      one waits for the resweep. */
  method Conclude(staged: nat, complete: bool, errors: bool, at: Time, resweepDays: nat)
      returns (result: SweepResult, due: Time)
    ensures var (r, retry) := CrawlVerdict(staged, complete, errors);
      result == r && due == CrawlDue(retry, at, resweepDays)
    ensures result.Candidates? <==> staged > 0
    ensures result.Error? <==> staged == 0 && (!complete || errors)
    ensures due == at + 86400 * (if !complete || (errors && staged == 0) then 1 else resweepDays)
  {
    if errors && staged == 0 && complete {
      result, due := Error, at + DAY * ERROR_RETRY_DAYS;
    } else if !complete {
      result, due := if staged > 0 then Candidates else Error, at + DAY * ERROR_RETRY_DAYS;
    } else {
      result, due := if staged > 0 then Candidates else NotFound, at + DAY * resweepDays;
    }
  }

  function Row(task: Task, staged: nat, result: SweepResult, at: Time): HistoryRow {
    HistoryRow(task.corpus, task.jurisdiction, task.source, task.dispatchId, task.querySeq, result, staged, at)
  }

  /** Records the crawl once, and finalizes the target while it still carries this dispatch. */
  method WriteBack(w: World, ghost r: nat, task: Task, staged: nat, ghost complete: bool, ghost errors: bool,
                   result: SweepResult, due: Time)
    requires w.Valid() && r in w.workers && w.workers[r] == Gated(task) && task.source.LegalCodes?
    requires var (v, retry) := CrawlVerdict(staged, complete, errors);
      result == v && due == CrawlDue(retry, w.now, w.resweepDays)
    modifies w`targets, w`history, w`workers, w`orchestrators, w`stamps, w`inCounter, w`increments, w`log
    ensures w.Valid() && w.workers == old(w.workers) - {r}
    ensures w.history == InsertHistory(old(w.history), Row(task, staged, result, w.now))
    ensures w.targets == if HasKey(old(w.history), task.dispatchId, task.querySeq) then old(w.targets)
                         else Finalize(old(w.targets), task.target, task.dispatchId, result, due)
  {
    CrawlStep(w, r, task, staged, complete, errors, result, due);
    var inserted := RecordCrawl(w, r, task, staged, result, due);
    if inserted { Finish(w, r, task, result, due); }
    Sweeping.DropLast(w, r, old(w.workers));
  }

  ghost method CrawlStep(w: World, r: nat, task: Task, staged: nat, complete: bool, errors: bool, result: SweepResult,
                         due: Time)
    requires w.Valid() && r in w.workers && w.workers[r] == Gated(task) && task.source.LegalCodes?
    requires var (v, retry) := CrawlVerdict(staged, complete, errors);
      result == v && due == CrawlDue(retry, w.now, w.resweepDays)
    modifies w`workers, w`orchestrators, w`stamps, w`inCounter, w`increments, w`log
    ensures w.Valid() && Sweeping.Stands(old(w.View()), w.View(), r, Crawled(task, w.now, staged, result, due))
  {
    Sweeping.Move(w, r, Step.Crawl(r, staged, complete, errors), Crawled(task, w.now, staged, result, due));
  }

  method RecordCrawl(w: World, ghost r: nat, task: Task, staged: nat, result: SweepResult, ghost due: Time)
      returns (inserted: bool)
    requires w.Valid() && r in w.workers && w.workers[r] == Crawled(task, w.now, staged, result, due)
    modifies w`history, w`workers, w`orchestrators, w`stamps, w`inCounter, w`increments, w`log
    ensures w.Valid() && inserted == !HasKey(old(w.history), task.dispatchId, task.querySeq)
    ensures w.history == InsertHistory(old(w.history), Row(task, staged, result, w.now))
    ensures w.workers == old(w.workers)[r := if inserted then CrawlRecorded(task, result, due) else Deleting(task)]
  {
    ghost var before := w.View();
    inserted := w.InsertHistoryRow(Row(task, staged, result, w.now));
    assert Enabled(before, Record(r)) && Apply(before, Record(r)) == DoRecord(before, r);
    w.Follow(DoRecord(before, r));
  }

  method Finish(w: World, ghost r: nat, task: Task, result: SweepResult, due: Time)
    requires w.Valid() && r in w.workers && w.workers[r] == CrawlRecorded(task, result, due)
    modifies w`targets, w`workers, w`orchestrators, w`stamps, w`inCounter, w`increments, w`log
    ensures w.Valid() && w.workers == old(w.workers)[r := Deleting(task)]
    ensures w.targets == Finalize(old(w.targets), task.target, task.dispatchId, result, due)
  {
    ghost var before := w.View();
    var _ := w.FinalizeTarget(task.target, task.dispatchId, result, due);
    assert Enabled(before, CrawlFinish(r)) && Apply(before, CrawlFinish(r)) == DoFinalize(before, r, task.target,
      task.dispatchId, result, due);
    w.Follow(DoFinalize(before, r, task.target, task.dispatchId, result, due));
  }

  /** What one delivery of a crawl does, whether its message is deleted, and how many groups it visited. */
  ghost predicate Handled(s: State, t: Staging.Tables, s': State, t': Staging.Tables, task: Task, portals: seq<Portal>,
                          deleted: bool, n: nat) {
    if !Open(s, task) then deleted && s' == s && t' == t
    else
      Stop(portals, n) &&
      var crawl := Visits(t, task.corpus, portals, n, s.now);
      t' == crawl.staging &&
      if n > 0 && portals[n - 1].Transient? then !deleted && s' == s
      else
        var (result, retry) := CrawlVerdict(crawl.staged, crawl.complete, crawl.errors);
        deleted && s'.history == InsertHistory(s.history, Row(task, crawl.staged, result, s.now)) &&
        s'.targets == if HasKey(s.history, task.dispatchId, task.querySeq) then s.targets
                      else Finalize(s.targets, task.target, task.dispatchId, result,
                        CrawlDue(retry, s.now, s.resweepDays))
  }

  // ---- the same in the portals visited and the artifacts added

  /** The candidates of the first `n` groups, in order. */
  function UrlsOf(portals: seq<Portal>, n: nat): seq<string>
    requires n <= |portals|
  {
    if n == 0 then [] else UrlsOf(portals, n - 1) + if portals[n - 1].Found? then portals[n - 1].urls else []
  }

  /** Some visited group was cut short, or the deadline came before it. */
  ghost predicate CutShort(portals: seq<Portal>, n: nat)
    requires n <= |portals|
  {
    exists i :: 0 <= i < n && (portals[i].DeadlineHit? || (portals[i].Found? && !portals[i].complete))
  }

  ghost predicate SomeFailed(portals: seq<Portal>, n: nat)
    requires n <= |portals|
  {
    exists i :: 0 <= i < n && portals[i].PortalFailed?
  }

  lemma {:induction false} StageConcat(t: Staging.Tables, corpus: string, a: seq<string>, b: seq<string>, at: Time)
    ensures var (mid, m) := Staging.StageMany(t, corpus, a, at); var (end, k) := Staging.StageMany(mid, corpus, b, at);
      Staging.StageMany(t, corpus, a + b, at) == (end, m + k)
    decreases |b|
  {
    if b == [] {
      assert a + b == a;
    } else {
      var rest, last := b[..|b| - 1], b[|b| - 1];
      StageConcat(t, corpus, a, rest, at);
      assert a + b == (a + rest) + [last] && b == rest + [last];
      StageLast(t, corpus, a + rest, last, at);
      StageLast(Staging.StageMany(t, corpus, a, at).0, corpus, rest, last, at);
    }
  }

  lemma StageLast(t: Staging.Tables, corpus: string, urls: seq<string>, url: string, at: Time)
    ensures var (mid, m) := Staging.StageMany(t, corpus, urls, at);
      var (end, staged) := Staging.StageOne(mid, corpus, url, at);
      Staging.StageMany(t, corpus, urls + [url], at) == (end, if staged then m + 1 else m)
  {
    assert (urls + [url])[..|urls|] == urls;
  }

  /** The crawl stages the candidates of the groups it visits. */
  lemma {:induction false} VisitsStage(t: Staging.Tables, corpus: string, portals: seq<Portal>, n: nat, at: Time)
    requires n <= |portals|
    ensures var crawl := Visits(t, corpus, portals, n, at);
      (crawl.staging, crawl.staged) == Staging.StageMany(t, corpus, UrlsOf(portals, n), at)
  {
    if n > 0 {
      VisitsStage(t, corpus, portals, n - 1, at);
      OneStages(t, Visits(t, corpus, portals, n - 1, at), corpus, UrlsOf(portals, n - 1), portals[n - 1], at);
    }
  }

  lemma OneStages(t: Staging.Tables, c: Progress, corpus: string, urls: seq<string>, p: Portal, at: Time)
    requires (c.staging, c.staged) == Staging.StageMany(t, corpus, urls, at)
    ensures var c' := Visit(c, corpus, p, at);
      (c'.staging, c'.staged) == Staging.StageMany(t, corpus, urls + if p.Found? then p.urls else [], at)
  {
    if p.Found? { StageConcat(t, corpus, urls, p.urls, at); } else { assert urls + [] == urls; }
  }

  /** It is incomplete exactly when a group was cut short, and has errors exactly when one failed. */
  lemma {:induction false} VisitsFlag(t: Staging.Tables, corpus: string, portals: seq<Portal>, n: nat, at: Time)
    requires n <= |portals|
    ensures var crawl := Visits(t, corpus, portals, n, at);
      crawl.complete == !CutShort(portals, n) && crawl.errors == SomeFailed(portals, n)
  {
    if n > 0 {
      VisitsFlag(t, corpus, portals, n - 1, at);
      CutOrNot(portals, n);
      FailedOrNot(portals, n);
    }
  }

  lemma CutOrNot(portals: seq<Portal>, n: nat)
    requires 0 < n <= |portals|
    ensures var p := portals[n - 1];
      CutShort(portals, n) <==> CutShort(portals, n - 1) || p.DeadlineHit? || (p.Found? && !p.complete)
  {
  }

  lemma FailedOrNot(portals: seq<Portal>, n: nat)
    requires 0 < n <= |portals|
    ensures SomeFailed(portals, n) <==> SomeFailed(portals, n - 1) || portals[n - 1].PortalFailed?
  {
  }

  /** The row of the crawl: candidates exactly when it staged some, an error exactly when it staged none and was cut
      short or had a failed portal. */
  ghost predicate CrawlRow(row: HistoryRow, task: Task, staged: int, cut: bool, failed: bool, at: Time) {
    row.dispatchId == task.dispatchId && row.querySeq == task.querySeq && row.corpus == task.corpus &&
    row.jurisdiction == task.jurisdiction && row.source == task.source && row.sweptAt == at &&
    row.candidates == staged && (row.result.Candidates? <==> staged > 0) &&
    (row.result.Error? <==> staged == 0 && (cut || failed))
  }

  /** Row `k` shows the crawl's result, and is due in a day when the crawl was cut short, or a portal failed with
      nothing staged; otherwise at the resweep. */
  ghost predicate CrawlEnded(before: map<nat, Target>, after: map<nat, Target>, k: nat, result: SweepResult,
                             staged: int, cut: bool, failed: bool, at: Time, resweepDays: nat) {
    k in before && after == before[k := before[k].(lastResult := Some(result), dispatchedAt := None, dispatchId := None,
      queryCount := None,
      nextDueAt := at + 86400 * (if cut || (failed && staged == 0) then 1 else resweepDays))]
  }

  /** One delivery of a crawl that got through the gate and met no transient failure. */
  ghost predicate CrawlWritten(s: State, s': State, task: Task, staged: int, cut: bool, failed: bool) {
    if exists row :: row in s.history && row.dispatchId == task.dispatchId && row.querySeq == task.querySeq
    then s'.history == s.history && s'.targets == s.targets
    else
      |s'.history| == |s.history| + 1 && s'.history[..|s.history|] == s.history &&
      var row := s'.history[|s.history|];
      CrawlRow(row, task, staged, cut, failed, s.now) &&
      CrawlEnded(s.targets, s'.targets, task.target, row.result, staged, cut, failed, s.now, s.resweepDays)
  }

  /** A stopped corpus or a stale dispatch id deletes the message unworked; a transient failure leaves it for
      redelivery; otherwise the crawl is recorded once. */
  ghost predicate Delivered(s: State, t: Staging.Tables, s': State, t': Staging.Tables, task: Task,
                            portals: seq<Portal>, deleted: bool, n: nat) {
    if !(task.corpus in s.switches && s.switches[task.corpus] == Running && task.target in s.targets &&
      s.targets[task.target].dispatchId == Some(task.dispatchId))
    then deleted && s' == s && t' == t
    else
      n <= |portals| && (forall i :: 0 <= i < n - 1 ==> !portals[i].DeadlineHit? && !portals[i].Transient?) &&
      (n < |portals| ==> n > 0 && (portals[n - 1].DeadlineHit? || portals[n - 1].Transient?)) &&
      t' == Staging.StageMany(t, task.corpus, UrlsOf(portals, n), s.now).0 && t.nextId <= t'.nextId &&
      deleted == !(n > 0 && portals[n - 1].Transient?) &&
      if !deleted then s' == s
      else CrawlWritten(s, s', task, t'.nextId - t.nextId, CutShort(portals, n), SomeFailed(portals, n))
  }

  lemma HandledMeans(s: State, t: Staging.Tables, s': State, t': Staging.Tables, task: Task, portals: seq<Portal>,
                         deleted: bool, n: nat)
    requires Handled(s, t, s', t', task, portals, deleted, n)
    ensures Delivered(s, t, s', t', task, portals, deleted, n)
  {
    if Open(s, task) {
      var crawl := Visits(t, task.corpus, portals, n, s.now);
      VisitsStage(t, task.corpus, portals, n, s.now);
      VisitsFlag(t, task.corpus, portals, n, s.now);
      Staging.StagedIds(t, task.corpus, UrlsOf(portals, n), s.now);
      if !(n > 0 && portals[n - 1].Transient?) { VerdictWrites(s, s', task, crawl); }
    }
  }

  lemma VerdictWrites(s: State, s': State, task: Task, c: Progress)
    requires Holds(s.targets, task.target, task.dispatchId)
    requires var (result, retry) := CrawlVerdict(c.staged, c.complete, c.errors);
      s'.history == InsertHistory(s.history, Row(task, c.staged, result, s.now)) &&
      s'.targets == if HasKey(s.history, task.dispatchId, task.querySeq) then s.targets
                    else Finalize(s.targets, task.target, task.dispatchId, result,
                      CrawlDue(retry, s.now, s.resweepDays))
    ensures CrawlWritten(s, s', task, c.staged, !c.complete, c.errors)
  {
    if !HasKey(s.history, task.dispatchId, task.querySeq) {
      forall row | row in s.history ensures !IsKey(row, task.dispatchId, task.querySeq) {
        var i :| 0 <= i < |s.history| && s.history[i] == row;
      }
    }
  }

  method HandleOne(w: World, st: ArtifactStore.Store, ghost r: nat, task: Task, portals: seq<Portal>)
      returns (deleted: bool, ghost n: nat)
    requires w.Valid() && st.Valid() && r !in w.workers && task in w.sent && task.source.LegalCodes?
    modifies w`targets, w`history, w`workers, w`orchestrators, w`stamps, w`inCounter, w`increments, w`log
    modifies st`artifacts, st`nextId, st`inserted, st`keys, st`nextDispatch, st`published
    ensures w.Valid() && st.Valid() && w.workers == old(w.workers)
    ensures Delivered(old(w.View()), old(st.View()), w.View(), st.View(), task, portals, deleted, n)
  {
    deleted, n := Work(w, st, r, task, portals);
    HandledMeans(old(w.View()), old(st.View()), w.View(), st.View(), task, portals, deleted, n);
  }

  method Work(w: World, st: ArtifactStore.Store, ghost r: nat, task: Task, portals: seq<Portal>)
      returns (deleted: bool, ghost n: nat)
    requires w.Valid() && st.Valid() && r !in w.workers && task in w.sent && task.source.LegalCodes?
    modifies w`targets, w`history, w`workers, w`orchestrators, w`stamps, w`inCounter, w`increments, w`log
    modifies st`artifacts, st`nextId, st`inserted, st`keys, st`nextDispatch, st`published
    ensures w.Valid() && st.Valid() && w.workers == old(w.workers)
    ensures Handled(old(w.View()), old(st.View()), w.View(), st.View(), task, portals, deleted, n)
  {
    n := 0;
    var open := GateCode(w, r, task);
    if !open { return true, n; }
    var staged, complete, errors, transient, visited := CrawlPortals(st, task.corpus, portals, w.now);
    n := visited;
    assert w.workers - {r} == old(w.workers);
    if transient {
      w.Follow(Apply(w.View(), Crash(r)));
      return false, n;
    }
    var result, due := Conclude(staged, complete, errors, w.now, w.resweepDays);
    WriteBack(w, r, task, staged, complete, errors, result, due);
    deleted := true;
  }
}
