/** When a stamp that wins is of a due row, with any number of orchestrators: what may happen to a row between the
    moment it is read and the moment it is stamped. */
module HarvestReread {
  import opened Options
  import opened HarvestTables
  import opened HarvestProtocol
  import opened HarvestInvariant
  import opened HarvestSafety
  import opened HarvestTheorems
  import HarvestSolo

  /** The last finalization or parking of row `k` from position `from` on. */
  ghost function LastClear(log: seq<Event>, from: nat, k: nat): (last: Option<Event>)
    ensures last.Some? ==> Clears(last.value, k)
  {
    if |log| <= from then None
    else if Clears(log[|log| - 1], k) then Some(log[|log| - 1])
    else LastClear(log[..|log| - 1], from, k)
  }

  /** Since position `from` the row was finalized, or parked until after `at`, whichever came last. */
  ghost predicate PutOff(log: seq<Event>, from: nat, k: nat, at: Time) {
    var last := LastClear(log, from, k);
    last.Some? && (last.value.FinalEvent? || last.value.due > at)
  }

  lemma AppendClear(log: seq<Event>, from: nat, k: nat, e: Event)
    requires from <= |log|
    ensures LastClear(log + [e], from, k) == if Clears(e, k) then Some(e) else LastClear(log, from, k)
  {
    assert (log + [e])[..|log|] == log;
  }

  // ---- what is known of row `k` since state `a`, in which it was read unstamped

  /** A worker on a dispatch stamped since `a` has found what it found since then. */
  ghost predicate WorkerSince(a: State, pc: Worker) {
    pc.task.dispatchId >= a.nextId ==>
      (pc.Swept? || pc.Recorded? || pc.Counted? || pc.Expiring? ==> pc.at >= a.now) &&
      (pc.Crawled? || pc.CrawlRecorded? ==> pc.due > a.now)
  }

  ghost predicate WorkersSince(a: State, workers: map<nat, Worker>) {
    forall w :: w in workers ==> WorkerSince(a, workers[w])
  }

  /** The row's due time is the one it was read with, or the one its last clearing gave it. */
  ghost predicate RowSince(a: State, s: State, k: nat) {
    k in a.targets && k in s.targets && s.targets[k].source == a.targets[k].source &&
    (s.targets[k].dispatchId.Some? ==> s.targets[k].dispatchId.value >= a.nextId) &&
    var last := LastClear(s.log, |a.log|, k);
    s.targets[k].nextDueAt == if last.Some? then last.value.due else a.targets[k].nextDueAt
  }

  /** Finalizations put the row off past the moment it was read; only crawl rows are parked. */
  ghost predicate LogSince(a: State, s: State, k: nat) {
    |a.log| <= |s.log| &&
    forall i :: |a.log| <= i < |s.log| && Clears(s.log[i], k) ==>
      if s.log[i].FinalEvent? then s.log[i].due > a.now else k in a.targets && a.targets[k].source.LegalCodes?
  }

  ghost predicate Since(a: State, s: State, k: nat) {
    a.nextId <= s.nextId && a.now <= s.now && s.resweepDays == a.resweepDays >= 1 &&
    RowSince(a, s, k) && LogSince(a, s, k) && WorkersSince(a, s.workers)
  }

  lemma SinceBegins(a: State, k: nat)
    requires Inv(a) && k in a.targets && a.targets[k].dispatchId.None? && a.resweepDays >= 1
    ensures Since(a, a, k)
  {
    forall w | w in a.workers ensures WorkerSince(a, a.workers[w]) { assert TaskOk(a, a.workers[w].task); }
  }

  /** The row, the log and the configuration are as before, and the one worker that moved is still fine. */
  lemma QuietSince(a: State, s: State, s': State, k: nat, w: nat)
    requires Since(a, s, k) && k in s'.targets && s'.targets[k] == s.targets[k] && s'.log == s.log
    requires s'.nextId >= s.nextId && s'.now >= s.now && s'.resweepDays == s.resweepDays
    requires forall v :: v in s'.workers && v != w ==> v in s.workers && s'.workers[v] == s.workers[v]
    requires w in s'.workers ==> WorkerSince(a, s'.workers[w])
    ensures Since(a, s', k)
  {
    forall v | v in s'.workers && v != w ensures WorkerSince(a, s'.workers[v]) { assert WorkerSince(a, s.workers[v]); }
  }

  /** A worker step that writes no row: what the worker holds afterwards was found since `a`. */
  lemma WorkSince(a: State, s: State, step: Step)
    requires WorkersSince(a, s.workers) && a.now <= s.now && s.resweepDays >= 1
    requires Enabled(s, step) && IsWorkerStep(step) && !step.FanIn? && !step.CrawlFinish?
    ensures var s' := Apply(s, step); step.w in s'.workers ==> WorkerSince(a, s'.workers[step.w])
  {
    if step.w in s.workers { assert WorkerSince(a, s.workers[step.w]); }
  }

  lemma WorkerStepFrame(s: State, step: Step)
    requires Enabled(s, step) && IsWorkerStep(step) && !step.FanIn? && !step.CrawlFinish?
    ensures var s' := Apply(s, step);
      s'.targets == s.targets && s'.log == s.log && s'.nextId == s.nextId && s'.now == s.now &&
      s'.resweepDays == s.resweepDays &&
      forall v :: v in s'.workers && v != step.w ==> v in s.workers && s'.workers[v] == s.workers[v]
  {
  }

  /** A finalization, of this row or another, or one that lost its dispatch. */
  lemma FinalizeSince(a: State, s: State, k: nat, w: nat, target: nat, d: nat, result: SweepResult, due: Time)
    requires Since(a, s, k) && w in s.workers && (d >= a.nextId ==> due > a.now)
    ensures Since(a, DoFinalize(s, w, target, d, result, due), k)
  {
    var s' := DoFinalize(s, w, target, d, result, due);
    var e := FinalEvent(target, d, result, due);
    forall v | v in s'.workers ensures WorkerSince(a, s'.workers[v]) { assert WorkerSince(a, s.workers[v]); }
    if Holds(s.targets, target, d) { AppendClear(s.log, |a.log|, k, e); }
  }

  lemma FanInSince(a: State, s: State, k: nat, w: nat)
    requires Since(a, s, k) && Enabled(s, FanIn(w))
    ensures Since(a, DoFanIn(s, w), k)
  {
    var pc := s.workers[w];
    assert WorkerSince(a, pc);
    if pc.counts.done != pc.task.queryCount {
      QuietSince(a, s, DoFanIn(s, w), k, w);
    } else {
      var result := FanInVerdict(pc.counts, pc.task.queryCount);
      FinalizeSince(a, s, k, w, pc.task.target, pc.task.dispatchId, result, FanInDue(result, pc.at, s.resweepDays));
    }
  }

  lemma StampSince(a: State, s: State, k: nat, o: nat, count: nat)
    requires Since(a, s, k) && Enabled(s, StampRow(o, count))
    ensures Since(a, DoStamp(s, o, count), k)
  {
    var t := s.orchestrators[o].todo[0];
    if StampMatches(s.targets[t.id], t.dispatchId, t.dispatchedAt) { WinSince(a, s, k, o, count); }
  }

  lemma WinSince(a: State, s: State, k: nat, o: nat, count: nat)
    requires Since(a, s, k) && Enabled(s, StampRow(o, count))
    requires var t := s.orchestrators[o].todo[0]; StampMatches(s.targets[t.id], t.dispatchId, t.dispatchedAt)
    ensures Since(a, DoStamp(s, o, count), k)
  {
    var t := s.orchestrators[o].todo[0];
    var e := StampEvent(t.id, s.orchestrators[o].at, s.nextId, t.dispatchId);
    assert DoStamp(s, o, count).log == s.log + [e];
    AppendClear(s.log, |a.log|, k, e);
  }

  lemma ParkSince(a: State, s: State, k: nat, o: nat)
    requires Since(a, s, k) && Enabled(s, Park(o)) && OrchestratorOk(s, s.orchestrators[o])
    ensures Since(a, DoPark(s, o), k)
  {
    var pc := s.orchestrators[o];
    assert SnapshotOk(s, pc.todo[0], pc.corpus, pc.at);
    AppendClear(s.log, |a.log|, k, ParkEvent(pc.todo[0].id, pc.at + DAY * s.resweepDays));
  }

  predicate MovesRows(step: Step) { step.FanIn? || step.CrawlFinish? || step.StampRow? || step.Park? }

  lemma IdleFrame(s: State, step: Step)
    requires Enabled(s, step) && !IsWorkerStep(step) && !MovesRows(step)
    ensures var s' := Apply(s, step);
      s'.targets == s.targets && s'.log == s.log && s'.nextId == s.nextId && s'.now >= s.now &&
      s'.resweepDays == s.resweepDays && s'.workers == s.workers
  {
  }

  lemma CrawlFinishSince(a: State, s: State, k: nat, w: nat)
    requires Since(a, s, k) && Enabled(s, CrawlFinish(w))
    ensures Since(a, Apply(s, CrawlFinish(w)), k)
  {
    var pc := s.workers[w];
    assert WorkerSince(a, pc);
    FinalizeSince(a, s, k, w, pc.task.target, pc.task.dispatchId, pc.result, pc.due);
  }

  lemma StepSince(a: State, s: State, k: nat, step: Step)
    requires Since(a, s, k) && OrchestratorsOk(s) && Enabled(s, step)
    ensures Since(a, Apply(s, step), k)
  {
    if step.FanIn? { FanInSince(a, s, k, step.w); }
    else if step.CrawlFinish? { CrawlFinishSince(a, s, k, step.w); }
    else if step.StampRow? { StampSince(a, s, k, step.o, step.count); }
    else if step.Park? { ParkSince(a, s, k, step.o); }
    else { OtherSince(a, s, k, step); }
  }

  lemma OtherSince(a: State, s: State, k: nat, step: Step)
    requires Since(a, s, k) && Enabled(s, step) && !MovesRows(step)
    ensures Since(a, Apply(s, step), k)
  {
    if IsWorkerStep(step) {
      WorkerStepFrame(s, step);
      WorkSince(a, s, step);
      QuietSince(a, s, Apply(s, step), k, step.w);
    } else {
      IdleFrame(s, step);
    }
  }

  // ---- the reading orchestrator goes on

  predicate NoStop(steps: seq<Step>, o: nat) { forall i :: 0 <= i < |steps| ==> steps[i] != Stop(o) }

  /** Orchestrator `o` still works through rows of `list`, read at `at`. */
  ghost predicate WorksThrough(s: State, o: nat, list: seq<Target>, at: Time) {
    o in s.orchestrators && !s.orchestrators[o].Started? && s.orchestrators[o].at == at &&
    forall t :: t in s.orchestrators[o].todo ==> t in list
  }

  lemma StepWorksThrough(s: State, step: Step, o: nat, list: seq<Target>, at: Time)
    requires WorksThrough(s, o, list, at) && Enabled(s, step) && step != Stop(o)
    ensures WorksThrough(Apply(s, step), o, list, at)
  {
    if HarvestSolo.TouchesRows(step) && !step.FanIn? && !step.CrawlFinish? && step.o == o {
      OwnStepWorksThrough(s, step, o);
    } else {
      OthersLeave(s, step, o);
    }
  }

  /** The orchestrator stays in its cycle, with the same rows left or one fewer. */
  ghost predicate GoesOn(pc: Orchestrator, s': State, o: nat)
    requires !pc.Started?
  {
    o in s'.orchestrators && !s'.orchestrators[o].Started? && s'.orchestrators[o].at == pc.at &&
    (s'.orchestrators[o].todo == pc.todo || (|pc.todo| > 0 && s'.orchestrators[o].todo == pc.todo[1..]))
  }

  lemma StampGoesOn(s: State, o: nat, count: nat)
    requires Enabled(s, StampRow(o, count))
    ensures GoesOn(s.orchestrators[o], DoStamp(s, o, count), o)
  {
  }

  lemma SendGoesOn(s: State, o: nat)
    requires Enabled(s, Send(o))
    ensures GoesOn(s.orchestrators[o], DoSend(s, o), o)
  {
  }

  lemma ParkGoesOn(s: State, o: nat)
    requires Enabled(s, Park(o))
    ensures GoesOn(s.orchestrators[o], DoPark(s, o), o)
  {
  }

  lemma OwnStepWorksThrough(s: State, step: Step, o: nat)
    requires o in s.orchestrators && !s.orchestrators[o].Started? && Enabled(s, step)
    requires step == Skip(o) || step == Park(o) || step == Send(o) || (step.StampRow? && step.o == o)
    ensures GoesOn(s.orchestrators[o], Apply(s, step), o)
  {
    if step.StampRow? { StampGoesOn(s, o, step.count); }
    else if step.Send? { SendGoesOn(s, o); }
    else if step.Park? { ParkGoesOn(s, o); }
  }

  lemma OthersLeave(s: State, step: Step, o: nat)
    requires Enabled(s, step) && o in s.orchestrators
    requires HarvestSolo.TouchesRows(step) && !step.FanIn? && !step.CrawlFinish? ==> step.o != o
    ensures o in Apply(s, step).orchestrators && Apply(s, step).orchestrators[o] == s.orchestrators[o]
  {
    if IsWorkerStep(step) { HarvestSolo.WorkerLeavesOrchestrators(s, step); }
  }

  lemma {:induction false} RunWorksThrough(s: State, steps: seq<Step>, o: nat, list: seq<Target>, at: Time)
    requires ValidRun(s, steps) && NoStop(steps, o) && WorksThrough(s, o, list, at)
    ensures WorksThrough(Run(s, steps), o, list, at)
    decreases |steps|
  {
    if steps != [] {
      assert steps[0] != Stop(o);
      StepWorksThrough(s, steps[0], o, list, at);
      RunWorksThrough(Apply(s, steps[0]), steps[1..], o, list, at);
    }
  }

  lemma {:induction false} RunSince(a: State, s: State, steps: seq<Step>, k: nat)
    requires Since(a, s, k) && Inv(s) && ValidRun(s, steps)
    ensures Since(a, Run(s, steps), k)
    decreases |steps|
  {
    if steps != [] {
      StepSince(a, s, k, steps[0]);
      StepKeepsInv(s, steps[0]);
      RunSince(a, Apply(s, steps[0]), steps[1..], k);
    }
  }

  lemma {:induction false} ResweepStays(s: State, steps: seq<Step>)
    requires ValidRun(s, steps)
    ensures Run(s, steps).resweepDays == s.resweepDays
    decreases |steps|
  {
    if steps != [] {
      StepKeepsResweep(s, steps[0]);
      ResweepStays(Apply(s, steps[0]), steps[1..]);
    }
  }

  lemma StepKeepsResweep(s: State, step: Step)
    requires Enabled(s, step)
    ensures Apply(s, step).resweepDays == s.resweepDays
  {
    if MovesRows(step) { RowStepsKeepResweep(s, step); }
    else if IsWorkerStep(step) { WorkerStepFrame(s, step); }
    else { IdleFrame(s, step); }
  }

  lemma RowStepsKeepResweep(s: State, step: Step)
    requires Enabled(s, step) && MovesRows(step)
    ensures Apply(s, step).resweepDays == s.resweepDays
  {
    if step.FanIn? { assert Apply(s, step) == DoFanIn(s, step.w); }
    else if step.StampRow? { assert Apply(s, step) == DoStamp(s, step.o, step.count); }
    else if step.Park? { assert Apply(s, step) == DoPark(s, step.o); }
  }

  // ---- the exact condition

  lemma UnputIsDue(a: State, s: State, k: nat, at: Time)
    requires Since(a, s, k) && at <= a.now && a.targets[k].nextDueAt <= at
    ensures s.targets[k].nextDueAt <= at <==> !PutOff(s.log, |a.log|, k, at)
  {
    LastIsSince(a, s, k, |s.log|);
    assert s.log[..|s.log|] == s.log;
  }

  /** The last clearing is one of the log's events since `a`. */
  lemma {:induction false} LastIsSince(a: State, s: State, k: nat, n: nat)
    requires LogSince(a, s, k) && |a.log| <= n <= |s.log|
    ensures var last := LastClear(s.log[..n], |a.log|, k);
      last.Some? && last.value.FinalEvent? ==> last.value.due > a.now
    decreases n
  {
    if n > |a.log| {
      assert s.log[..n][..n - 1] == s.log[..n - 1];
      LastIsSince(a, s, k, n - 1);
    }
  }

  /** Any number of orchestrators: whatever happens between the moment an orchestrator reads the due list and the
      moment its stamp of a row wins, the row is still due if and only if it was read stamped (a re-dispatch), or
      nothing has put it off since: no finalization, and no parking until later than the cycle's own time. */
  lemma WhenAWinIsDue(s0: State, before: seq<Step>, o: nat, due: seq<Target>, limit: nat, after: seq<Step>, count: nat)
    requires Init(s0) && ValidRun(s0, before) && Enabled(Run(s0, before), Select(o, due, limit)) && s0.resweepDays >= 1
    requires var a := Apply(Run(s0, before), Select(o, due, limit));
      ValidRun(a, after) && NoStop(after, o) && Enabled(Run(a, after), StampRow(o, count))
    requires var s := Run(Apply(Run(s0, before), Select(o, due, limit)), after);
      var t := s.orchestrators[o].todo[0];
      StampMatches(s.targets[t.id], t.dispatchId, t.dispatchedAt)
    ensures
      var a := Apply(Run(s0, before), Select(o, due, limit));
      var s := Run(a, after);
      var pc := s.orchestrators[o];
      var t := pc.todo[0];
      var row := Apply(s, StampRow(o, count)).targets[t.id];
      row.dispatchedAt == Some(pc.at) &&
      (row.nextDueAt <= pc.at <==> t.dispatchId.Some? || !PutOff(s.log, |a.log|, t.id, pc.at))
  {
    ReadUnstamped(s0, before, o, due, limit, after);
    var a := Apply(Run(s0, before), Select(o, due, limit));
    var s := Run(a, after);
    var pc := s.orchestrators[o];
    assert OrchestratorOk(s, pc) && SnapshotOk(s, pc.todo[0], pc.corpus, pc.at);
    if pc.todo[0].dispatchId.None? { UnputIsDue(a, s, pc.todo[0].id, pc.at); }
  }

  /** Everything that is known of a row read unstamped, when its stamp comes. */
  lemma ReadUnstamped(s0: State, before: seq<Step>, o: nat, due: seq<Target>, limit: nat, after: seq<Step>)
    requires Init(s0) && ValidRun(s0, before) && Enabled(Run(s0, before), Select(o, due, limit)) && s0.resweepDays >= 1
    requires var a := Apply(Run(s0, before), Select(o, due, limit)); ValidRun(a, after) && NoStop(after, o)
    ensures
      var a := Apply(Run(s0, before), Select(o, due, limit));
      var s := Run(a, after);
      Inv(s) && o in s.orchestrators && !s.orchestrators[o].Started? &&
      forall t :: t in s.orchestrators[o].todo && t.dispatchId.None? ==>
        Since(a, s, t.id) && a.targets[t.id] == t && t.nextDueAt <= s.orchestrators[o].at <= a.now
  {
    var b := Run(s0, before);
    ReachableInv(s0, before);
    StepKeepsInv(b, Select(o, due, limit));
    var a := Apply(b, Select(o, due, limit));
    var list, at := a.orchestrators[o].todo, a.orchestrators[o].at;
    ResweepStays(s0, before);
    CycleReads(a, after, o, list, at);
    assert OrchestratorOk(a, a.orchestrators[o]);
    forall t | t in Run(a, after).orchestrators[o].todo && t.dispatchId.None?
      ensures Since(a, Run(a, after), t.id) && a.targets[t.id] == t && at <= a.now && t.nextDueAt <= at
    {
      assert t in list;
      SinceBegins(a, t.id);
      RunSince(a, a, after, t.id);
    }
  }

  lemma CycleReads(a: State, after: seq<Step>, o: nat, list: seq<Target>, at: Time)
    requires Inv(a) && ValidRun(a, after) && NoStop(after, o) && WorksThrough(a, o, list, at)
    ensures Inv(Run(a, after)) && WorksThrough(Run(a, after), o, list, at)
  {
    RunWorksThrough(a, after, o, list, at);
    RunKeepsInv(a, after);
  }

  /** For a sweep row that means: not finalized since, as only crawl rows are ever parked. */
  lemma SweepRowsArePutOffByFinalizing(a: State, s: State, k: nat, at: Time)
    requires Since(a, s, k) && a.targets[k].source.Serper?
    ensures PutOff(s.log, |a.log|, k, at) <==>
      exists i :: |a.log| <= i < |s.log| && s.log[i].FinalEvent? && s.log[i].target == k
  {
    FinalsSince(a, s, k, |s.log|);
    assert s.log[..|s.log|] == s.log;
  }

  lemma {:induction false} FinalsSince(a: State, s: State, k: nat, n: nat)
    requires LogSince(a, s, k) && k in a.targets && a.targets[k].source.Serper? && |a.log| <= n <= |s.log|
    ensures var last := LastClear(s.log[..n], |a.log|, k);
      (last.Some? ==> last.value.FinalEvent?) &&
      (last.Some? <==> exists i :: |a.log| <= i < n && s.log[i].FinalEvent? && s.log[i].target == k)
    decreases n
  {
    if n > |a.log| {
      assert s.log[..n][..n - 1] == s.log[..n - 1];
      FinalsSince(a, s, k, n - 1);
      if Clears(s.log[n - 1], k) { assert s.log[n - 1].FinalEvent?; }
    }
  }

  /** A sweep row read unstamped and then won is due if and only if it was not finalized in between. */
  lemma WhenASweepWinIsDue(s0: State, before: seq<Step>, o: nat, due: seq<Target>, limit: nat, after: seq<Step>,
                           count: nat)
    requires Init(s0) && ValidRun(s0, before) && Enabled(Run(s0, before), Select(o, due, limit)) && s0.resweepDays >= 1
    requires var a := Apply(Run(s0, before), Select(o, due, limit));
      ValidRun(a, after) && NoStop(after, o) && Enabled(Run(a, after), StampRow(o, count))
    requires var s := Run(Apply(Run(s0, before), Select(o, due, limit)), after);
      var t := s.orchestrators[o].todo[0];
      StampMatches(s.targets[t.id], t.dispatchId, t.dispatchedAt) && t.dispatchId.None? && t.source.Serper?
    ensures
      var a := Apply(Run(s0, before), Select(o, due, limit));
      var s := Run(a, after);
      var pc := s.orchestrators[o];
      var k := pc.todo[0].id;
      Apply(s, StampRow(o, count)).targets[k].nextDueAt <= pc.at <==>
        forall i :: |a.log| <= i < |s.log| && s.log[i].FinalEvent? ==> s.log[i].target != k
  {
    var a := Apply(Run(s0, before), Select(o, due, limit));
    WhenAWinIsDue(s0, before, o, due, limit, after, count);
    var s := Run(a, after);
    var t := s.orchestrators[o].todo[0];
    ReadUnstamped(s0, before, o, due, limit, after);
    SweepRowsArePutOffByFinalizing(a, s, t.id, s.orchestrators[o].at);
  }

  // ---- every orchestrator at work has read its list

  ghost predicate Reads(s: State, o: nat) { o in s.orchestrators && !s.orchestrators[o].Started? }

  lemma {:induction false} LastRead(s: State, steps: seq<Step>, o: nat) returns (n: Option<nat>)
    requires ValidRun(s, steps) && Reads(Run(s, steps), o)
    ensures n.None? ==> NoStop(steps, o) && Reads(s, o)
    ensures n.Some? ==>
      n.value < |steps| && steps[n.value].Select? && steps[n.value].o == o && NoStop(steps[n.value + 1..], o)
    decreases |steps|
  {
    n := None;
    if steps != [] {
      var rest := LastRead(Apply(s, steps[0]), steps[1..], o);
      if rest.Some? {
        n := Some(rest.value + 1);
        assert steps[1..][rest.value + 1..] == steps[n.value + 1..];
      } else if steps[0].Select? && steps[0].o == o {
        n := Some(0);
      } else {
        ReadBefore(s, steps[0], o);
        forall i | 0 <= i < |steps| ensures steps[i] != Stop(o) { if i > 0 { assert steps[1..][i - 1] == steps[i]; } }
      }
    }
  }

  lemma ReadBefore(s: State, step: Step, o: nat)
    requires Enabled(s, step) && Reads(Apply(s, step), o) && !(step.Select? && step.o == o)
    ensures step != Stop(o) && Reads(s, o)
  {
    if IsWorkerStep(step) { HarvestSolo.WorkerLeavesOrchestrators(s, step); }
  }

  lemma {:induction false} SplitRun(s: State, steps: seq<Step>, n: nat)
    requires ValidRun(s, steps) && n < |steps|
    ensures ValidRun(s, steps[..n]) && Enabled(Run(s, steps[..n]), steps[n])
    ensures ValidRun(Apply(Run(s, steps[..n]), steps[n]), steps[n + 1..])
    ensures Run(Apply(Run(s, steps[..n]), steps[n]), steps[n + 1..]) == Run(s, steps)
    decreases n
  {
    if n > 0 {
      SplitRun(Apply(s, steps[0]), steps[1..], n - 1);
      assert steps[..n][1..] == steps[1..][..n - 1] && steps[1..][n..] == steps[n + 1..];
    }
  }

  /** So the conditions above speak about every stamp: whoever is about to stamp read its list at some step of the
      run, and was not stopped since. */
  lemma EveryStampWasRead(s0: State, steps: seq<Step>, o: nat, count: nat)
    returns (before: seq<Step>, read: Step, after: seq<Step>)
    requires Init(s0) && ValidRun(s0, steps) && Enabled(Run(s0, steps), StampRow(o, count))
    ensures read.Select? && read.o == o && ValidRun(s0, before) && Enabled(Run(s0, before), read)
    ensures ValidRun(Apply(Run(s0, before), read), after) && NoStop(after, o)
    ensures Run(Apply(Run(s0, before), read), after) == Run(s0, steps)
  {
    var n := LastRead(s0, steps, o);
    SplitRun(s0, steps, n.value);
    before, read, after := steps[..n.value], steps[n.value], steps[n.value + 1..];
  }
}
