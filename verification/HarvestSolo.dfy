/** With one orchestrator a stamped row was due when it was stamped; with two it need not be. */
module HarvestSolo {
  import opened Options
  import opened HarvestTables
  import opened HarvestProtocol
  import opened HarvestInvariant
  import opened HarvestSafety
  import opened HarvestTheorems
  import opened HarvestRecovery

  ghost predicate StampedWasDue(s: State) {
    forall k :: k in s.targets && s.targets[k].dispatchedAt.Some? ==>
      s.targets[k].nextDueAt <= s.targets[k].dispatchedAt.value
  }

  predicate ByOthers(step: Step, o: nat) {
    (step.Stop? || step.Start? || step.Select? || step.Skip? || step.StampRow? || step.Park? || step.Send?) &&
      step.o != o
  }

  ghost predicate Solo(steps: seq<Step>, o: nat) {
    forall i :: 0 <= i < |steps| ==> !ByOthers(steps[i], o)
  }

  /** A row seen unstamped has stayed so, with the due time it was seen with. */
  ghost predicate Fresh(s: State, t: Target) {
    t.id in s.targets &&
    (t.dispatchId.None? ==> s.targets[t.id].dispatchId.None? && s.targets[t.id].nextDueAt == t.nextDueAt)
  }

  /** The first row an orchestrator has still to stamp. */
  function Pending(pc: Orchestrator): nat
    requires !pc.Started?
  {
    if pc.Sending? then 1 else 0
  }

  ghost predicate SoloOk(s: State, o: nat) {
    s.orchestrators.Keys <= {o} && StampedWasDue(s) &&
    (o in s.orchestrators && !s.orchestrators[o].Started? ==>
      var pc := s.orchestrators[o];
      (forall i, j :: 0 <= i < j < |pc.todo| ==> pc.todo[i].id != pc.todo[j].id) &&
      (forall i :: Pending(pc) <= i < |pc.todo| ==> Fresh(s, pc.todo[i])))
  }

  lemma SoloSelect(s: State, o: nat, due: seq<Target>, limit: nat)
    requires SoloOk(s, o) && Enabled(s, Select(o, due, limit))
    ensures SoloOk(Apply(s, Select(o, due, limit)), o)
  {
    forall i, j | 0 <= i < j < |due| ensures due[i].id != due[j].id {
      assert Before(due[i], due[j]);
    }
  }

  lemma SoloWin(s: State, o: nat, count: nat)
    requires OrchestratorsOk(s) && SoloOk(s, o) && Enabled(s, StampRow(o, count))
    requires var t := s.orchestrators[o].todo[0]; StampMatches(s.targets[t.id], t.dispatchId, t.dispatchedAt)
    ensures SoloOk(DoStamp(s, o, count), o)
  {
    var s' := DoStamp(s, o, count);
    var pc := s.orchestrators[o];
    assert OrchestratorOk(s, pc) && SnapshotOk(s, pc.todo[0], pc.corpus, pc.at) && Fresh(s, pc.todo[0]);
    forall i | 1 <= i < |pc.todo| ensures Fresh(s', pc.todo[i]) { assert Fresh(s, pc.todo[i]); }
  }

  lemma SoloLose(s: State, o: nat, count: nat)
    requires SoloOk(s, o) && Enabled(s, StampRow(o, count))
    requires var t := s.orchestrators[o].todo[0]; !StampMatches(s.targets[t.id], t.dispatchId, t.dispatchedAt)
    ensures SoloOk(DoStamp(s, o, count), o)
  {
    SoloMovesOn(s, DoStamp(s, o, count), o);
  }

  lemma SoloStamp(s: State, o: nat, count: nat)
    requires OrchestratorsOk(s) && SoloOk(s, o) && Enabled(s, StampRow(o, count))
    ensures SoloOk(DoStamp(s, o, count), o)
  {
    var t := s.orchestrators[o].todo[0];
    if StampMatches(s.targets[t.id], t.dispatchId, t.dispatchedAt) { SoloWin(s, o, count); }
      else { SoloLose(s, o, count); }
  }

  lemma SoloPark(s: State, o: nat)
    requires SoloOk(s, o) && Enabled(s, Park(o))
    ensures SoloOk(Apply(s, Park(o)), o)
  {
    var s' := DoPark(s, o);
    var pc := s.orchestrators[o];
    var pc' := s'.orchestrators[o];
    forall i | 0 <= i < |pc'.todo| ensures Fresh(s', pc'.todo[i]) {
      assert pc'.todo[i] == pc.todo[i + 1];
      assert Fresh(s, pc.todo[i + 1]);
    }
  }

  lemma SoloFinalize(s: State, o: nat, w: nat, k: nat, d: nat, result: SweepResult, due: Time)
    requires SoloOk(s, o) && w in s.workers
    ensures SoloOk(DoFinalize(s, w, k, d, result, due), o)
  {
    var s' := DoFinalize(s, w, k, d, result, due);
    if o in s.orchestrators && !s.orchestrators[o].Started? {
      var pc := s.orchestrators[o];
      forall i | Pending(pc) <= i < |pc.todo| ensures Fresh(s', pc.todo[i]) { assert Fresh(s, pc.todo[i]); }
    }
  }

  lemma SoloSameRows(s: State, s': State, o: nat)
    requires SoloOk(s, o) && s'.targets == s.targets && s'.orchestrators == s.orchestrators
    ensures SoloOk(s', o)
  {
    if o in s.orchestrators && !s.orchestrators[o].Started? {
      var pc := s.orchestrators[o];
      forall i | Pending(pc) <= i < |pc.todo| ensures Fresh(s', pc.todo[i]) { assert Fresh(s, pc.todo[i]); }
    }
  }

  /** The orchestrator moved on to fewer of the rows it had still to stamp. */
  lemma SoloMovesOn(s: State, s': State, o: nat)
    requires SoloOk(s, o) && s'.targets == s.targets && o in s.orchestrators && !s.orchestrators[o].Started?
    requires o in s'.orchestrators && !s'.orchestrators[o].Started?
    requires s'.orchestrators == s.orchestrators[o := s'.orchestrators[o]]
    requires var pc, pc' := s.orchestrators[o], s'.orchestrators[o];
             (pc'.todo == pc.todo && Pending(pc') == Pending(pc)) ||
             (|pc.todo| > 0 && pc'.todo == pc.todo[1..] && pc'.Selected?)
    ensures SoloOk(s', o)
  {
    var pc, pc' := s.orchestrators[o], s'.orchestrators[o];
    forall i | Pending(pc') <= i < |pc'.todo| ensures Fresh(s', pc'.todo[i]) {
      if pc'.todo == pc.todo { assert Fresh(s, pc.todo[i]); } else { assert pc'.todo[i] == pc.todo[i + 1] &&
        Fresh(s, pc.todo[i + 1]); }
    }
  }

  lemma SoloWorker(s: State, step: Step, o: nat)
    requires SoloOk(s, o) && Enabled(s, step) && (step.FanIn? || step.CrawlFinish?)
    ensures SoloOk(Apply(s, step), o)
  {
    match step
    case FanIn(w) =>
      var pc := s.workers[w];
      if pc.counts.done != pc.task.queryCount { SoloSameRows(s, Apply(s, step), o); }
      else {
        var result := FanInVerdict(pc.counts, pc.task.queryCount);
        SoloFinalize(s, o, w, pc.task.target, pc.task.dispatchId, result, FanInDue(result, pc.at, s.resweepDays));
      }
    case CrawlFinish(w) =>
      var pc := s.workers[w];
      SoloFinalize(s, o, w, pc.task.target, pc.task.dispatchId, pc.result, pc.due);
  }

  lemma SoloQuiet(s: State, step: Step, o: nat)
    requires SoloOk(s, o) && Enabled(s, step)
    requires step == Stop(o) || step == Skip(o) || step == Send(o) || (step.Start? && step.o == o)
    ensures SoloOk(Apply(s, step), o)
  {
    if step.Skip? || step.Send? { SoloMovesOn(s, Apply(s, step), o); }
  }

  predicate TouchesRows(step: Step) {
    step.FanIn? || step.CrawlFinish? || step.Stop? || step.Start? || step.Select? || step.Skip? ||
    step.StampRow? || step.Park? || step.Send?
  }

  lemma QuietStep(s: State, step: Step)
    requires Enabled(s, step) && !TouchesRows(step)
    ensures Apply(s, step).targets == s.targets && Apply(s, step).orchestrators == s.orchestrators
  {
  }

  lemma SoloElsewhere(s: State, step: Step, o: nat)
    requires SoloOk(s, o) && Enabled(s, step) && !TouchesRows(step)
    ensures SoloOk(Apply(s, step), o)
  {
    QuietStep(s, step);
    SoloSameRows(s, Apply(s, step), o);
  }

  lemma SoloOwn(s: State, step: Step, o: nat)
    requires OrchestratorsOk(s) && SoloOk(s, o) && Enabled(s, step)
    requires (step.Select? || step.StampRow? || step.Park?) && step.o == o
    ensures SoloOk(Apply(s, step), o)
  {
    match step
    case Select(_, due, limit) => SoloSelect(s, o, due, limit);
    case StampRow(_, count) => SoloStamp(s, o, count);
    case Park(_) => SoloPark(s, o);
  }

  lemma SoloStep(s: State, step: Step, o: nat)
    requires Inv(s) && SoloOk(s, o) && Enabled(s, step) && !ByOthers(step, o)
    ensures SoloOk(Apply(s, step), o)
  {
    if step.FanIn? || step.CrawlFinish? {
      SoloWorker(s, step, o);
    } else if step.Select? || step.StampRow? || step.Park? {
      SoloOwn(s, step, o);
    } else {
      SoloRest(s, step, o);
    }
  }

  lemma SoloRest(s: State, step: Step, o: nat)
    requires Inv(s) && SoloOk(s, o) && Enabled(s, step) && !ByOthers(step, o)
    requires !step.FanIn? && !step.CrawlFinish? && !step.Select? && !step.StampRow? && !step.Park?
    ensures SoloOk(Apply(s, step), o)
  {
    if TouchesRows(step) { SoloQuiet(s, step, o); } else { SoloElsewhere(s, step, o); }
  }

  lemma {:induction false} SoloRun(s: State, steps: seq<Step>, o: nat)
    requires Inv(s) && SoloOk(s, o) && ValidRun(s, steps) && Solo(steps, o)
    ensures SoloOk(Run(s, steps), o)
    decreases |steps|
  {
    if steps != [] {
      assert !ByOthers(steps[0], o);
      SoloStep(s, steps[0], o);
      StepKeepsInv(s, steps[0]);
      forall i | 0 <= i < |steps[1..]| ensures !ByOthers(steps[1..][i], o) { assert steps[1..][i] == steps[i + 1]; }
      SoloRun(Apply(s, steps[0]), steps[1..], o);
    }
  }

  /** One orchestrator: a stamped row was due at its stamp, in every reachable state. */
  lemma OneOrchestratorStampsOnlyDue(s0: State, steps: seq<Step>, o: nat)
    requires Init(s0) && ValidRun(s0, steps) && Solo(steps, o)
    ensures StampedWasDue(Run(s0, steps))
  {
    InitInv(s0);
    SoloRun(s0, steps, o);
  }

  /** Any number of orchestrators: a re-dispatch, over an earlier stamp, is always of a row that was due. */
  lemma RedispatchesAreDue(s0: State, steps: seq<Step>, o: nat, count: nat)
    requires Init(s0) && ValidRun(s0, steps) && Enabled(Run(s0, steps), StampRow(o, count))
    requires var s := Run(s0, steps); var t := s.orchestrators[o].todo[0];
             StampMatches(s.targets[t.id], t.dispatchId, t.dispatchedAt) && t.dispatchId.Some?
    ensures
      var s := Run(s0, steps);
      var pc := s.orchestrators[o];
      var row := Apply(s, StampRow(o, count)).targets[pc.todo[0].id];
      row.dispatchedAt == Some(pc.at) && row.nextDueAt <= pc.at
  {
    ReachableInv(s0, steps);
    var s := Run(s0, steps);
    var pc := s.orchestrators[o];
    assert OrchestratorOk(s, pc) && SnapshotOk(s, pc.todo[0], pc.corpus, pc.at);
  }

  lemma {:induction false} Extend(s: State, steps: seq<Step>, step: Step)
    requires ValidRun(s, steps) && Enabled(Run(s, steps), step)
    ensures ValidRun(s, steps + [step]) && Run(s, steps + [step]) == Apply(Run(s, steps), step)
    decreases |steps|
  {
    if steps == [] {
      assert [step][1..] == [];
    } else {
      Extend(Apply(s, steps[0]), steps[1..], step);
      assert (steps + [step])[1..] == steps[1..] + [step];
    }
  }

  const ROW := Target(0, "c", 0, Serper, 0, 0, None, None, None, None)
  const START := State(1, 0, map["c" := Running], map[0 := ROW], [], map[], {}, 0, map[], map[],
                       map[], map[], multiset{}, [])
  const TASK := Task(Serper, "c", 0, 0, 0, 0, 1)

  /** Both orchestrators hold the row as it was; the first has stamped it and sent its only task. */
  ghost predicate BothHold(s: State) {
    s.now == 0 && s.resweepDays == 1 && s.switches == START.switches && s.sent == {TASK} &&
    s.history == [] && s.counters == map[] && s.targets == map[0 := Stamped(ROW, 0, 0, 1)] &&
    1 in s.orchestrators && s.orchestrators[1] == Selected("c", 0, [ROW])
  }

  /** Worker steps leave the orchestrators where they stand. */
  lemma {:induction false} WorkersLeaveOrchestrators(s: State, steps: seq<Step>)
    requires ValidRun(s, steps) && forall i :: 0 <= i < |steps| ==> IsWorkerStep(steps[i])
    ensures Run(s, steps).orchestrators == s.orchestrators
    decreases |steps|
  {
    if steps != [] {
      WorkerLeavesOrchestrators(s, steps[0]);
      WorkersLeaveOrchestrators(Apply(s, steps[0]), steps[1..]);
    }
  }

  lemma WorkerLeavesOrchestrators(s: State, step: Step)
    requires Enabled(s, step) && IsWorkerStep(step)
    ensures Apply(s, step).orchestrators == s.orchestrators
  {
    if !TouchesRows(step) { QuietStep(s, step); }
    else if step.FanIn? { assert Apply(s, step) == DoFanIn(s, step.w); }
  }

  /** Two orchestrators: while one stamps, sweeps and finalizes the row, the other still holds it unstamped,
      and stamps it again although it is no longer due. */
  lemma TwoOrchestratorsStampARowNotDue() returns (steps: seq<Step>)
    ensures Init(START) && ValidRun(START, steps) && !StampedWasDue(Run(START, steps))
  {
    steps := BothSelectOneStamps();
    steps := TaskIsDelivered(steps);
    var s: State;
    steps, s := Then(START, steps, StampRow(1, 1));
    assert s.targets[0].nextDueAt == DAY && s.targets[0].dispatchedAt == Some(0);
  }

  lemma TaskIsDelivered(before: seq<Step>) returns (steps: seq<Step>)
    requires ValidRun(START, before) && BothHold(Run(START, before)) && Run(START, before).workers == map[]
    ensures ValidRun(START, steps)
    ensures var s := Run(START, steps);
            s.targets == map[0 := Cleared(ROW, Candidates, DAY)] &&
            1 in s.orchestrators && s.orchestrators[1] == Selected("c", 0, [ROW])
  {
    var s, v := Run(START, before), Visit(0, 1, false);
    DeliverySucceeds(s, 0, TASK, v);
    RunConcat(START, before, SweepDelivery(0, TASK, v));
    WorkersLeaveOrchestrators(s, SweepDelivery(0, TASK, v));
    steps := before + SweepDelivery(0, TASK, v);
  }

  lemma Then(s0: State, steps: seq<Step>, step: Step) returns (more: seq<Step>, s: State)
    requires ValidRun(s0, steps) && Enabled(Run(s0, steps), step)
    ensures ValidRun(s0, more) && s == Run(s0, more) == Apply(Run(s0, steps), step)
  {
    Extend(s0, steps, step);
    more := steps + [step];
    s := Run(s0, more);
  }

  lemma BothSelect() returns (steps: seq<Step>)
    ensures ValidRun(START, steps)
    ensures Run(START, steps) == START.(orchestrators := map[0 := Selected("c", 0, [ROW]),
      1 := Selected("c", 0, [ROW])])
  {
    var s: State;
    assert IsDueList(START.targets, "c", 0, [ROW]) by { assert ROW in [ROW]; }
    steps, s := Then(START, [], Start(0, "c"));
    steps, s := Then(START, steps, Start(1, "c"));
    steps, s := Then(START, steps, Select(0, [ROW], 1));
    steps, s := Then(START, steps, Select(1, [ROW], 1));
  }

  lemma BothSelectOneStamps() returns (steps: seq<Step>)
    ensures ValidRun(START, steps) && BothHold(Run(START, steps)) && Run(START, steps).workers == map[]
  {
    var s: State;
    steps := BothSelect();
    steps, s := Then(START, steps, StampRow(0, 1));
    steps, s := Then(START, steps, Send(0));
  }
}
