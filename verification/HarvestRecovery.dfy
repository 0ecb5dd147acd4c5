/** No reachable state wedges a target: the dispatch timeout, one cycle and one fault-free delivery of
    each of its messages, in any order, always finish it. */
module HarvestRecovery {
  import opened HarvestTables
  import opened HarvestProtocol
  import opened HarvestInvariant
  import opened HarvestTheorems

  lemma {:induction false} RunConcat(s: State, a: seq<Step>, b: seq<Step>)
    requires ValidRun(s, a) && ValidRun(Run(s, a), b)
    ensures ValidRun(s, a + b) && Run(s, a + b) == Run(Run(s, a), b)
    decreases |a|
  {
    if a == [] {
      assert a + b == b;
    } else {
      RunConcat(Apply(s, a[0]), a[1..], b);
      assert (a + b)[1..] == a[1..] + b;
    }
  }

  lemma One2(s: State, step: Step, rest: seq<Step>)
    requires Enabled(s, step) && ValidRun(Apply(s, step), rest)
    ensures ValidRun(s, [step] + rest) && Run(s, [step] + rest) == Run(Apply(s, step), rest)
  {
    assert ([step] + rest)[1..] == rest;
  }

  // ---- one dispatch cycle, undisturbed

  /** What the cycle meets at a row: queries or seeds for it, no seeds, or a jurisdiction or generation failure. */
  datatype Plan = Dispatch(count: nat) | NoSeeds | GiveUp

  predicate Fits(p: Plan, t: Target) {
    match p
    case Dispatch(n) => if t.source.Serper? then n >= 1 else n == 1
    case NoSeeds => t.source.LegalCodes?
    case GiveUp => true
  }

  function Sends(o: nat, n: nat): seq<Step> {
    if n == 0 then [] else [Send(o)] + Sends(o, n - 1)
  }

  function PlanSteps(o: nat, p: Plan): seq<Step> {
    match p
    case Dispatch(n) => [StampRow(o, n)] + Sends(o, n)
    case NoSeeds => [Park(o)]
    case GiveUp => [Skip(o)]
  }

  function CycleSteps(o: nat, plans: seq<Plan>): seq<Step> {
    if plans == [] then [] else PlanSteps(o, plans[0]) + CycleSteps(o, plans[1..])
  }

  /** A cycle touches rows, messages and its own program counter, nothing else. */
  ghost predicate CycleFrame(s: State, s': State) {
    s'.now == s.now && s'.resweepDays == s.resweepDays && s'.switches == s.switches && s'.history == s.history &&
    s'.counters == s.counters && s'.workers == s.workers && s'.nextId >= s.nextId && s.sent <= s'.sent &&
    s'.targets.Keys == s.targets.Keys
  }

  lemma {:induction false} SendsRun(s: State, o: nat, n: nat)
    requires o in s.orchestrators && s.orchestrators[o].Sending? && |s.orchestrators[o].todo| > 0
    requires n >= 1 && s.orchestrators[o].next + n == s.orchestrators[o].count
    ensures ValidRun(s, Sends(o, n))
    ensures
      var pc := s.orchestrators[o];
      var s' := Run(s, Sends(o, n));
      s' == s.(sent := s'.sent, orchestrators := s.orchestrators[o := Selected(pc.corpus, pc.at, pc.todo[1..])]) &&
      s.sent <= s'.sent &&
      forall q: nat :: pc.next <= q < pc.count ==> TaskFor(pc.todo[0], pc.id, q, pc.count) in s'.sent
    decreases n
  {
    var s1 := Apply(s, Send(o));
    if n > 1 {
      SendsRun(s1, o, n - 1);
      One2(s, Send(o), Sends(o, n - 1));
    } else {
      assert Sends(o, 0) == [];
      One2(s, Send(o), []);
      assert Sends(o, 1) == [Send(o)] + [];
    }
  }

  /** The snapshot at the head of the list is the row itself. */
  ghost predicate Current(s: State, o: nat) {
    o in s.orchestrators && s.orchestrators[o].Selected? &&
    (forall i :: 0 <= i < |s.orchestrators[o].todo| ==>
      s.orchestrators[o].todo[i].id in s.targets &&
        s.targets[s.orchestrators[o].todo[i].id] == s.orchestrators[o].todo[i]) &&
    (forall i, j :: 0 <= i < j < |s.orchestrators[o].todo| ==>
      s.orchestrators[o].todo[i].id != s.orchestrators[o].todo[j].id)
  }

  /** One row's part of the cycle: it moves that row, its messages and the program counter. */
  ghost predicate PlanDone(s: State, s': State, o: nat, p: Plan)
    requires o in s.orchestrators && s.orchestrators[o].Selected? && |s.orchestrators[o].todo| > 0
  {
    var pc := s.orchestrators[o];
    var t := pc.todo[0];
    CycleFrame(s, s') && s'.orchestrators == s.orchestrators[o := Selected(pc.corpus, pc.at, pc.todo[1..])] &&
    (forall k :: k in s.targets && k != t.id ==> s'.targets[k] == s.targets[k]) &&
    (p.Dispatch? ==>
      t.id in s'.targets && s'.targets[t.id] == Stamped(t, pc.at, s.nextId, p.count) &&
      forall q: nat :: q < p.count ==> TaskFor(t, s.nextId, q, p.count) in s'.sent)
  }

  lemma DispatchRun(s: State, o: nat, n: nat)
    requires Current(s, o) && |s.orchestrators[o].todo| > 0 && Fits(Dispatch(n), s.orchestrators[o].todo[0])
    ensures ValidRun(s, PlanSteps(o, Dispatch(n))) && PlanDone(s, Run(s, PlanSteps(o, Dispatch(n))), o, Dispatch(n))
  {
    var pc := s.orchestrators[o];
    var s1 := Apply(s, StampRow(o, n));
    assert s1.orchestrators[o] == Sending(pc.corpus, pc.at, pc.todo, s.nextId, n, 0);
    SendsRun(s1, o, n);
    One2(s, StampRow(o, n), Sends(o, n));
  }

  lemma PlanRun(s: State, o: nat, p: Plan)
    requires Current(s, o) && |s.orchestrators[o].todo| > 0 && Fits(p, s.orchestrators[o].todo[0])
    ensures ValidRun(s, PlanSteps(o, p)) && PlanDone(s, Run(s, PlanSteps(o, p)), o, p)
  {
    match p
    case Dispatch(n) => DispatchRun(s, o, n);
    case NoSeeds => One2(s, Park(o), []); assert [Park(o)] + [] == [Park(o)];
    case GiveUp => One2(s, Skip(o), []); assert [Skip(o)] + [] == [Skip(o)];
  }

  /** After the cycle the chosen row carries a fresh stamp and all its tasks are queued. */
  ghost predicate Dispatched(s: State, s': State, t: Target, at: Time, d: nat, count: nat) {
    CycleFrame(s, s') && d >= s.nextId && t.id in s'.targets && s'.targets[t.id] == Stamped(t, at, d, count) &&
    forall q: nat :: q < count ==> TaskFor(t, d, q, count) in s'.sent
  }

  lemma {:induction false} CycleRuns(s: State, o: nat, plans: seq<Plan>)
    requires Current(s, o) && |plans| == |s.orchestrators[o].todo|
    requires forall i :: 0 <= i < |plans| ==> Fits(plans[i], s.orchestrators[o].todo[i])
    ensures ValidRun(s, CycleSteps(o, plans))
    ensures var s' := Run(s, CycleSteps(o, plans));
            CycleFrame(s, s') &&
            forall k :: k in s.targets && (forall i :: 0 <= i < |plans| ==> s.orchestrators[o].todo[i].id != k) ==>
              s'.targets[k] == s.targets[k]
    decreases |plans|
  {
    if plans != [] {
      PlanRun(s, o, plans[0]);
      var s1 := Run(s, PlanSteps(o, plans[0]));
      var todo := s.orchestrators[o].todo;
      assert forall i :: 0 <= i < |plans| - 1 ==> todo[1..][i] == todo[i + 1];
      CycleRuns(s1, o, plans[1..]);
      RunConcat(s, PlanSteps(o, plans[0]), CycleSteps(o, plans[1..]));
    }
  }

  lemma {:induction false} CycleDispatches(s: State, o: nat, plans: seq<Plan>, j: nat) returns (d: nat)
    requires Current(s, o) && |plans| == |s.orchestrators[o].todo|
    requires forall i :: 0 <= i < |plans| ==> Fits(plans[i], s.orchestrators[o].todo[i])
    requires j < |plans| && plans[j].Dispatch?
    ensures ValidRun(s, CycleSteps(o, plans))
    ensures Dispatched(s, Run(s, CycleSteps(o, plans)), s.orchestrators[o].todo[j], s.orchestrators[o].at, d,
      plans[j].count)
    decreases |plans|
  {
    PlanRun(s, o, plans[0]);
    var s1 := Run(s, PlanSteps(o, plans[0]));
    var todo := s.orchestrators[o].todo;
    assert forall i :: 0 <= i < |plans| - 1 ==> todo[1..][i] == todo[i + 1];
    if j == 0 {
      d := s.nextId;
      CycleRuns(s1, o, plans[1..]);
    } else {
      d := CycleDispatches(s1, o, plans[1..], j - 1);
      LaterDispatch(s, s1, Run(s1, CycleSteps(o, plans[1..])), todo[j], s.orchestrators[o].at, d, plans[j].count);
    }
    RunConcat(s, PlanSteps(o, plans[0]), CycleSteps(o, plans[1..]));
  }

  lemma LaterDispatch(s: State, s1: State, s': State, t: Target, at: Time, d: nat, count: nat)
    requires CycleFrame(s, s1) && Dispatched(s1, s', t, at, d, count)
    ensures Dispatched(s, s', t, at, d, count)
  {
  }

  // ---- one fault-free delivery

  datatype Visit = Visit(sq: nat, staged: nat, errored: bool)

  function SweepDelivery(w: nat, task: Task, v: Visit): seq<Step> {
    ([Receive(w, task), ReadSwitch(w)] + [ReadTarget(w), ReadHistory(w)]) +
    ([Sweep(w, v.staged, v.errored), Record(w)] + ([Increment(w), Expire(w)] + [FanIn(w), Delete(w)]))
  }

  function VisitRow(task: Task, v: Visit, now: Time): HistoryRow {
    HistoryRow(task.corpus, task.jurisdiction, task.source, task.dispatchId, task.querySeq,
               QueryResult(v.staged, v.errored), v.staged, now)
  }

  /** The message would pass the gate, and no query with its key is recorded. */
  ghost predicate Open(s: State, w: nat, task: Task) {
    w !in s.workers && task in s.sent && task.source.Serper? &&
    task.corpus in s.switches && s.switches[task.corpus].Running? &&
    Holds(s.targets, task.target, task.dispatchId) && !HasKey(s.history, task.dispatchId, task.querySeq)
  }

  lemma Two(s: State, a: Step, b: Step)
    requires Enabled(s, a) && Enabled(Apply(s, a), b)
    ensures ValidRun(s, [a, b]) && Run(s, [a, b]) == Apply(Apply(s, a), b)
  {
    One2(Apply(s, a), b, []);
    assert [b] + [] == [b];
    One2(s, a, [b]);
    assert [a] + [b] == [a, b];
  }

  /** Both gates begin with the message and the switch. */
  lemma SwitchPasses(s: State, w: nat, task: Task)
    requires w !in s.workers && task in s.sent && task.corpus in s.switches && s.switches[task.corpus].Running?
    ensures var steps := [Receive(w, task), ReadSwitch(w)];
      ValidRun(s, steps) && Run(s, steps) == s.(workers := s.workers[w := SwitchRead(task)])
  {
    Two(s, Receive(w, task), ReadSwitch(w));
  }

  lemma RowPasses(s: State, w: nat, task: Task)
    requires w in s.workers && s.workers[w] == SwitchRead(task) && task.source.Serper? &&
      Holds(s.targets, task.target, task.dispatchId)
    requires !HasKey(s.history, task.dispatchId, task.querySeq)
    ensures var steps := [ReadTarget(w), ReadHistory(w)];
      ValidRun(s, steps) && Run(s, steps) == s.(workers := s.workers[w := Gated(task)])
  {
    assert !HasRow(s.history, task.corpus, task.jurisdiction, task.dispatchId, task.querySeq);
    Two(s, ReadTarget(w), ReadHistory(w));
  }

  lemma GatePasses(s: State, w: nat, task: Task)
    requires Open(s, w, task)
    ensures
      var steps := [Receive(w, task), ReadSwitch(w)] + [ReadTarget(w), ReadHistory(w)];
      ValidRun(s, steps) && Run(s, steps) == s.(workers := s.workers[w := Gated(task)])
  {
    var s2 := s.(workers := s.workers[w := SwitchRead(task)]);
    SwitchPasses(s, w, task);
    RowPasses(s2, w, task);
    assert s2.workers[w := Gated(task)] == s.workers[w := Gated(task)];
    RunConcat(s, [Receive(w, task), ReadSwitch(w)], [ReadTarget(w), ReadHistory(w)]);
  }

  function AfterFanIn(targets: map<nat, Target>, task: Task, c: Counts, at: Time, resweepDays: nat): map<nat, Target> {
    if c.done != task.queryCount then targets
    else
      var result := FanInVerdict(c, task.queryCount);
      Finalize(targets, task.target, task.dispatchId, result, FanInDue(result, at, resweepDays))
  }

  lemma WorkRecords(s: State, w: nat, task: Task, v: Visit)
    requires w in s.workers && s.workers[w] == Gated(task) && task.source.Serper?
    requires !HasKey(s.history, task.dispatchId, task.querySeq)
    ensures
      var steps := [Sweep(w, v.staged, v.errored), Record(w)];
      ValidRun(s, steps) &&
      Run(s, steps) == s.(history := s.history + [VisitRow(task, v, s.now)],
                          workers := s.workers[w := Recorded(task, s.now, v.staged, v.errored)])
  {
    Two(s, Sweep(w, v.staged, v.errored), Record(w));
  }

  lemma CounterBumps(s: State, w: nat, task: Task, v: Visit)
    requires w in s.workers && s.workers[w] == Recorded(task, s.now, v.staged, v.errored)
    ensures
      var steps := [Increment(w), Expire(w)];
      var counters := Bump(s.counters, task.dispatchId, v.staged, v.errored);
      ValidRun(s, steps) &&
      var s' := Run(s, steps);
      s' == s.(counters := counters, inCounter := s'.inCounter, increments := s'.increments,
               workers := s.workers[w := Expiring(task, s.now, counters[task.dispatchId])])
  {
    Two(s, Increment(w), Expire(w));
  }

  lemma FanInFinishes(s: State, w: nat, task: Task, c: Counts)
    requires w in s.workers && s.workers[w] == Expiring(task, s.now, c)
    ensures
      var steps := [FanIn(w), Delete(w)];
      ValidRun(s, steps) &&
      var s' := Run(s, steps);
      s' == s.(targets := AfterFanIn(s.targets, task, c, s.now, s.resweepDays), log := s'.log,
               workers := s.workers - {w})
  {
    FanInMoves(s, w, task, c);
    var mid := Apply(s, FanIn(w));
    assert mid.workers - {w} == s.workers - {w};
    One2(mid, Delete(w), []);
    One2(s, FanIn(w), [Delete(w)]);
    assert [Delete(w)] + [] == [Delete(w)] && [FanIn(w)] + [Delete(w)] == [FanIn(w), Delete(w)];
  }

  lemma FanInMoves(s: State, w: nat, task: Task, c: Counts)
    requires w in s.workers && s.workers[w] == Expiring(task, s.now, c)
    ensures Enabled(s, FanIn(w))
    ensures Apply(s, FanIn(w)) == s.(targets := AfterFanIn(s.targets, task, c, s.now, s.resweepDays),
      log := Apply(s, FanIn(w)).log,
                                     workers := s.workers[w := Deleting(task)])
  {
    assert Apply(s, FanIn(w)) == DoFanIn(s, w);
  }

  lemma CounterFinishes(s: State, w: nat, task: Task, v: Visit)
    requires w in s.workers && s.workers[w] == Recorded(task, s.now, v.staged, v.errored)
    ensures
      var steps := [Increment(w), Expire(w)] + [FanIn(w), Delete(w)];
      var counters := Bump(s.counters, task.dispatchId, v.staged, v.errored);
      ValidRun(s, steps) &&
      var s' := Run(s, steps);
      s' == s.(targets := AfterFanIn(s.targets, task, counters[task.dispatchId], s.now, s.resweepDays),
               counters := counters, workers := s.workers - {w},
               inCounter := s'.inCounter, increments := s'.increments, log := s'.log)
  {
    CounterBumps(s, w, task, v);
    var s2 := Run(s, [Increment(w), Expire(w)]);
    var c := s2.counters[task.dispatchId];
    FanInFinishes(s2, w, task, c);
    assert s2.workers - {w} == s.workers - {w};
    RunConcat(s, [Increment(w), Expire(w)], [FanIn(w), Delete(w)]);
  }

  lemma DeliverySucceeds(s: State, w: nat, task: Task, v: Visit)
    requires Open(s, w, task)
    ensures
      var counters := Bump(s.counters, task.dispatchId, v.staged, v.errored);
      ValidRun(s, SweepDelivery(w, task, v)) &&
      var s' := Run(s, SweepDelivery(w, task, v));
      s'.history == s.history + [VisitRow(task, v, s.now)] && s'.counters == counters &&
      s'.targets == AfterFanIn(s.targets, task, counters[task.dispatchId], s.now, s.resweepDays) &&
      w !in s'.workers &&
      s'.now == s.now && s'.sent == s.sent && s'.switches == s.switches && s'.resweepDays == s.resweepDays
  {
    var s1 := s.(workers := s.workers[w := Gated(task)]);
    var s2 := s.(history := s.history + [VisitRow(task, v, s.now)],
                 workers := s.workers[w := Recorded(task, s.now, v.staged, v.errored)]);
    GatePasses(s, w, task);
    WorkRecords(s1, w, task, v);
    assert s2 == Run(s1, [Sweep(w, v.staged, v.errored), Record(w)]);
    CounterFinishes(s2, w, task, v);
    RunConcat(s1, [Sweep(w, v.staged, v.errored), Record(w)], [Increment(w), Expire(w)] + [FanIn(w), Delete(w)]);
    RunConcat(s, [Receive(w, task), ReadSwitch(w)] + [ReadTarget(w), ReadHistory(w)],
              [Sweep(w, v.staged, v.errored), Record(w)] + ([Increment(w), Expire(w)] + [FanIn(w), Delete(w)]));
  }

  // ---- every delivery of a dispatch, in any order

  function Deliveries(w: nat, t: Target, d: nat, count: nat, order: seq<Visit>): seq<Step> {
    if order == [] then []
    else SweepDelivery(w, TaskFor(t, d, order[0].sq, count), order[0]) + Deliveries(w, t, d, count, order[1..])
  }

  /** `left` of the queries of this dispatch remain, and the counter has counted the others. */
  ghost predicate InProgress(s: State, w: nat, t: Target, d: nat, count: nat, order: seq<Visit>) {
    w !in s.workers && t.source.Serper? && t.corpus in s.switches && s.switches[t.corpus].Running? &&
    |order| <= count && Holds(s.targets, t.id, d) &&
    (if |order| == count then d !in s.counters else d in s.counters && s.counters[d].done == count - |order|) &&
    (forall i, j :: 0 <= i < j < |order| ==> order[i].sq != order[j].sq) &&
    (forall i :: 0 <= i < |order| ==>
      order[i].sq < count && !HasKey(s.history, d, order[i].sq) && TaskFor(t, d, order[i].sq, count) in s.sent)
  }

  /** The row is no longer in flight: cleared, with a result, and due only later. */
  ghost predicate Settled(s: State, k: nat) {
    k in s.targets && s.targets[k].dispatchId.None? && s.targets[k].dispatchedAt.None? &&
    s.targets[k].lastResult.Some? && s.targets[k].nextDueAt > s.now
  }

  lemma {:induction false} DeliveriesSettle(s: State, w: nat, t: Target, d: nat, count: nat, order: seq<Visit>)
    requires InProgress(s, w, t, d, count, order) && |order| > 0 && s.resweepDays >= 1
    ensures ValidRun(s, Deliveries(w, t, d, count, order))
    ensures Settled(Run(s, Deliveries(w, t, d, count, order)), t.id)
    decreases |order|
  {
    var v := order[0];
    var task := TaskFor(t, d, v.sq, count);
    DeliverySucceeds(s, w, task, v);
    var s1 := Run(s, SweepDelivery(w, task, v));
    if |order| == 1 {
      assert Deliveries(w, t, d, count, order[1..]) == [];
      RunConcat(s, SweepDelivery(w, task, v), []);
    } else {
      forall i | 0 <= i < |order[1..]|
        ensures order[1..][i].sq < count && !HasKey(s1.history, d, order[1..][i].sq) &&
                TaskFor(t, d, order[1..][i].sq, count) in s1.sent
      {
        assert order[1..][i] == order[i + 1];
        OtherKey(s.history, VisitRow(task, v, s.now), d, order[i + 1].sq);
      }
      DeliveriesSettle(s1, w, t, d, count, order[1..]);
      RunConcat(s, SweepDelivery(w, task, v), Deliveries(w, t, d, count, order[1..]));
    }
  }

  lemma OtherKey(history: seq<HistoryRow>, row: HistoryRow, d: nat, q: nat)
    requires !HasKey(history, d, q) && !IsKey(row, d, q)
    ensures !HasKey(history + [row], d, q)
  {
    forall i | 0 <= i < |history + [row]| ensures !IsKey((history + [row])[i], d, q) {
      if i < |history| { assert (history + [row])[i] == history[i]; }
    }
  }

  // ---- crawls

  function CrawlDelivery(w: nat, task: Task, staged: nat, complete: bool, anyErrors: bool): seq<Step> {
    ([Receive(w, task), ReadSwitch(w)] + [ReadTarget(w), Crawl(w, staged, complete, anyErrors)]) +
    ([Record(w), CrawlFinish(w)] + [Delete(w)])
  }

  lemma CrawlWorks(s: State, w: nat, task: Task, staged: nat, complete: bool, anyErrors: bool)
    requires w in s.workers && s.workers[w] == SwitchRead(task) && task.source.LegalCodes? &&
      Holds(s.targets, task.target, task.dispatchId)
    ensures var steps := [ReadTarget(w), Crawl(w, staged, complete, anyErrors)];
      ValidRun(s, steps) && Run(s, steps) == s.(workers := s.workers[w := AfterCrawl(s, task, staged, complete,
        anyErrors)])
  {
    Two(s, ReadTarget(w), Crawl(w, staged, complete, anyErrors));
  }

  lemma CrawlBegins(s: State, w: nat, task: Task, staged: nat, complete: bool, anyErrors: bool)
    requires w !in s.workers && task in s.sent && task.source.LegalCodes?
    requires task.corpus in s.switches && s.switches[task.corpus].Running? &&
      Holds(s.targets, task.target, task.dispatchId)
    ensures
      var steps := [Receive(w, task), ReadSwitch(w)] + [ReadTarget(w), Crawl(w, staged, complete, anyErrors)];
      ValidRun(s, steps) &&
      Run(s, steps) == s.(workers := s.workers[w := AfterCrawl(s, task, staged, complete, anyErrors)])
  {
    var s2 := s.(workers := s.workers[w := SwitchRead(task)]);
    var pc := AfterCrawl(s, task, staged, complete, anyErrors);
    SwitchPasses(s, w, task);
    CrawlWorks(s2, w, task, staged, complete, anyErrors);
    assert s2.workers[w := pc] == s.workers[w := pc] && pc == AfterCrawl(s2, task, staged, complete, anyErrors);
    RunConcat(s, [Receive(w, task), ReadSwitch(w)], [ReadTarget(w), Crawl(w, staged, complete, anyErrors)]);
  }

  lemma CrawlEnds(s: State, w: nat, task: Task, pc: Worker)
    requires w in s.workers && s.workers[w] == pc && pc.Crawled? && pc.task == task
    requires !HasKey(s.history, task.dispatchId, task.querySeq) && Holds(s.targets, task.target, task.dispatchId)
    ensures
      var steps := [Record(w), CrawlFinish(w)] + [Delete(w)];
      ValidRun(s, steps) &&
      Run(s, steps).targets == s.targets[task.target := Cleared(s.targets[task.target], pc.result, pc.due)] &&
      Run(s, steps).now == s.now
  {
    Two(s, Record(w), CrawlFinish(w));
    var s2 := Run(s, [Record(w), CrawlFinish(w)]);
    One2(s2, Delete(w), []);
    assert [Delete(w)] + [] == [Delete(w)];
    RunConcat(s, [Record(w), CrawlFinish(w)], [Delete(w)]);
  }

  lemma CrawlSettles(s: State, w: nat, task: Task, staged: nat, complete: bool, anyErrors: bool)
    requires w !in s.workers && task in s.sent && task.source.LegalCodes? && s.resweepDays >= 1
    requires task.corpus in s.switches && s.switches[task.corpus].Running? &&
      Holds(s.targets, task.target, task.dispatchId)
    requires !HasKey(s.history, task.dispatchId, task.querySeq)
    ensures ValidRun(s, CrawlDelivery(w, task, staged, complete, anyErrors))
    ensures Settled(Run(s, CrawlDelivery(w, task, staged, complete, anyErrors)), task.target)
  {
    var pc := AfterCrawl(s, task, staged, complete, anyErrors);
    var s1 := s.(workers := s.workers[w := pc]);
    CrawlBegins(s, w, task, staged, complete, anyErrors);
    CrawlEnds(s1, w, task, pc);
    RunConcat(s, [Receive(w, task), ReadSwitch(w)] + [ReadTarget(w), Crawl(w, staged, complete, anyErrors)],
              [Record(w), CrawlFinish(w)] + [Delete(w)]);
  }

  // ---- recovery

  /** An undisturbed cycle: after `wait`, a free orchestrator reads the due list and works through it. */
  function Cycle(o: nat, corpus: string, wait: nat, due: seq<Target>, limit: nat, plans: seq<Plan>): seq<Step> {
    [Tick(wait), Start(o, corpus)] + ([Select(o, due, limit)] + CycleSteps(o, plans))
  }

  /** The cycle after the timeout: `due` is the due list it reads, and row `k` is within the limit of it. */
  ghost predicate Ready(s: State, o: nat, k: nat, wait: nat, due: seq<Target>, limit: nat, plans: seq<Plan>, j: nat) {
    k in s.targets && o !in s.orchestrators && s.resweepDays >= 1 &&
    s.targets[k].corpus in s.switches && s.switches[s.targets[k].corpus].Running? &&
    IsDueList(s.targets, s.targets[k].corpus, s.now + wait, due) &&
    j < limit && j < |due| && due[j].id == k && |plans| == |Take(due, limit)| &&
    forall i :: 0 <= i < |plans| ==> Fits(plans[i], due[i])
  }

  /** Every reachable row that is due after the timeout is on the list the cycle reads. */
  lemma DueAfterTimeout(s0: State, steps: seq<Step>, k: nat, wait: nat, due: seq<Target>)
    requires Init(s0) && ValidRun(s0, steps) && k in Run(s0, steps).targets
    requires
      var s := Run(s0, steps);
      var t := s.targets[k];
      wait >= Timeout(t.source) && t.nextDueAt <= s.now + wait && IsDueList(s.targets, t.corpus, s.now + wait, due)
    ensures exists j :: 0 <= j < |due| && due[j].id == k
  {
    ReachableInv(s0, steps);
    var s := Run(s0, steps);
    assert RowOk(s, k);
    assert Due(s.targets[k], s.targets[k].corpus, s.now + wait);
  }

  function SelectedState(s: State, o: nat, corpus: string, wait: nat, due: seq<Target>, limit: nat): State {
    s.(now := s.now + wait, orchestrators := s.orchestrators[o := Selected(corpus, s.now + wait, Take(due, limit))])
  }

  lemma SelectedIsCurrent(s: State, o: nat, corpus: string, wait: nat, due: seq<Target>, limit: nat)
    requires IsDueList(s.targets, corpus, s.now + wait, due)
    ensures Current(SelectedState(s, o, corpus, wait, due, limit), o)
  {
    var todo := Take(due, limit);
    forall i, m | 0 <= i < m < |todo| ensures todo[i].id != todo[m].id { assert Before(due[i], due[m]); }
  }

  lemma Three(s: State, a: Step, b: Step, c: Step, rest: seq<Step>)
    requires Enabled(s, a) && Enabled(Apply(s, a), b) && Enabled(Apply(Apply(s, a), b), c)
    requires ValidRun(Apply(Apply(Apply(s, a), b), c), rest)
    ensures ValidRun(s, [a, b] + ([c] + rest))
    ensures Run(s, [a, b] + ([c] + rest)) == Run(Apply(Apply(Apply(s, a), b), c), rest)
  {
    One2(Apply(Apply(s, a), b), c, rest);
    One2(Apply(s, a), b, [c] + rest);
    One2(s, a, [b] + ([c] + rest));
    assert [a] + ([b] + ([c] + rest)) == [a, b] + ([c] + rest);
  }

  function StartedState(s: State, o: nat, corpus: string, wait: nat): State {
    s.(now := s.now + wait, orchestrators := s.orchestrators[o := Started(corpus, s.now + wait)])
  }

  lemma CycleStarts(s: State, o: nat, corpus: string, wait: nat)
    requires o !in s.orchestrators && corpus in s.switches && s.switches[corpus].Running?
    ensures Enabled(s, Tick(wait)) && Enabled(Apply(s, Tick(wait)), Start(o, corpus))
    ensures Apply(Apply(s, Tick(wait)), Start(o, corpus)) == StartedState(s, o, corpus, wait)
  {
  }

  lemma CycleSelects(s: State, o: nat, corpus: string, wait: nat, due: seq<Target>, limit: nat)
    requires IsDueList(s.targets, corpus, s.now + wait, due)
    ensures var s2 := StartedState(s, o, corpus, wait);
      Enabled(s2, Select(o, due, limit)) && Apply(s2, Select(o, due, limit)) == SelectedState(s, o, corpus, wait, due,
        limit)
  {
  }

  lemma CycleIsWhole(s: State, o: nat, corpus: string, wait: nat, due: seq<Target>, limit: nat, plans: seq<Plan>)
    requires o !in s.orchestrators && corpus in s.switches && s.switches[corpus].Running?
    requires IsDueList(s.targets, corpus, s.now + wait, due)
    requires ValidRun(SelectedState(s, o, corpus, wait, due, limit), CycleSteps(o, plans))
    ensures ValidRun(s, Cycle(o, corpus, wait, due, limit, plans))
    ensures Run(s, Cycle(o, corpus, wait, due, limit, plans)) ==
            Run(SelectedState(s, o, corpus, wait, due, limit), CycleSteps(o, plans))
  {
    CycleStarts(s, o, corpus, wait);
    CycleSelects(s, o, corpus, wait, due, limit);
    Three(s, Tick(wait), Start(o, corpus), Select(o, due, limit), CycleSteps(o, plans));
  }

  /** Seen from before the wait, the cycle's dispatch is the same. */
  lemma DispatchedSince(s: State, s3: State, s': State, t: Target, at: Time, d: nat, count: nat)
    requires s3 == s.(now := s3.now, orchestrators := s3.orchestrators) && Dispatched(s3, s', t, at, d, count)
    ensures Dispatched(s, s'.(now := s.now), t, at, d, count)
  {
  }

  lemma TakeIsPrefix<T>(s: seq<T>, n: nat)
    ensures |Take(s, n)| <= |s| && forall i :: 0 <= i < |Take(s, n)| ==> Take(s, n)[i] == s[i]
  {
  }

  lemma SelectedDispatches(s: State, o: nat, t: Target, wait: nat, due: seq<Target>, limit: nat, plans: seq<Plan>,
                           j: nat)
    returns (d: nat)
    requires var s3 := SelectedState(s, o, t.corpus, wait, due, limit); Current(s3, o)
    requires j < |plans| == |Take(due, limit)| && due[j] == t && plans[j].Dispatch?
    requires forall i :: 0 <= i < |plans| ==> Fits(plans[i], due[i])
    ensures var s3 := SelectedState(s, o, t.corpus, wait, due, limit);
            ValidRun(s3, CycleSteps(o, plans)) &&
            Dispatched(s, Run(s3, CycleSteps(o, plans)).(now := s.now), t, s.now + wait, d, plans[j].count)
  {
    var s3 := SelectedState(s, o, t.corpus, wait, due, limit);
    TakeIsPrefix(due, limit);
    assert s3.orchestrators[o] == Selected(t.corpus, s.now + wait, Take(due, limit));
    d := CycleDispatches(s3, o, plans, j);
    DispatchedSince(s, s3, Run(s3, CycleSteps(o, plans)), t, s.now + wait, d, plans[j].count);
  }

  lemma ReadyRow(s: State, o: nat, k: nat, wait: nat, due: seq<Target>, limit: nat, plans: seq<Plan>, j: nat)
    requires Ready(s, o, k, wait, due, limit, plans, j)
    ensures j < |plans| && due[j] == s.targets[k] && Fits(plans[j], s.targets[k])
  {
  }

  lemma CycleStampsRow(s: State, o: nat, k: nat, wait: nat, due: seq<Target>, limit: nat, plans: seq<Plan>, j: nat)
    returns (d: nat)
    requires Ready(s, o, k, wait, due, limit, plans, j) && plans[j].Dispatch?
    ensures ValidRun(s, Cycle(o, s.targets[k].corpus, wait, due, limit, plans))
    ensures Dispatched(s, Run(s, Cycle(o, s.targets[k].corpus, wait, due, limit, plans)).(now := s.now),
                       s.targets[k], s.now + wait, d, plans[j].count)
  {
    var t := s.targets[k];
    ReadyRow(s, o, k, wait, due, limit, plans, j);
    SelectedIsCurrent(s, o, t.corpus, wait, due, limit);
    d := SelectedDispatches(s, o, t, wait, due, limit, plans, j);
    CycleIsWhole(s, o, t.corpus, wait, due, limit, plans);
  }

  /** A fresh dispatch id has no history and no counter. */
  lemma FreshDispatch(s: State, d: nat)
    requires Inv(s) && d !in s.stamps
    ensures d !in s.counters && forall q: nat :: !HasKey(s.history, d, q)
  {
    forall e | e in s.counters ensures e in s.stamps { assert CounterOk(s, e); }
  }

  /** No reachable state wedges a sweep target. Whatever crashed, was lost or is still in flight: wait out the
      timeout, run one cycle, and deliver its messages once each, in any order and with any outcomes. */
  lemma NoSweepTargetIsWedged(s0: State, steps: seq<Step>, o: nat, w: nat, k: nat, wait: nat, due: seq<Target>,
                              limit: nat, plans: seq<Plan>, j: nat, order: seq<Visit>)
    returns (d: nat)
    requires Init(s0) && ValidRun(s0, steps)
    requires var s := Run(s0, steps);
             Ready(s, o, k, wait, due, limit, plans, j) && plans[j].Dispatch? &&
             s.targets[k].source.Serper? && w !in s.workers
    requires |order| == plans[j].count
    requires forall i :: 0 <= i < |order| ==> order[i].sq < |order|
    requires forall i, m :: 0 <= i < m < |order| ==> order[i].sq != order[m].sq
    ensures
      var s := Run(s0, steps);
      var t := s.targets[k];
      var run := Cycle(o, t.corpus, wait, due, limit, plans) + Deliveries(w, t, d, plans[j].count, order);
      ValidRun(s, run) && Settled(Run(s, run), k)
  {
    ReachableInv(s0, steps);
    var s := Run(s0, steps);
    var t := s.targets[k];
    var cycle := Cycle(o, t.corpus, wait, due, limit, plans);
    d := CycleStampsRow(s, o, k, wait, due, limit, plans, j);
    assert RowOk(s, k) && d !in s.stamps;
    FreshDispatch(s, d);
    assert Fits(plans[j], due[j]);
    DeliveriesSettle(Run(s, cycle), w, t, d, plans[j].count, order);
    RunConcat(s, cycle, Deliveries(w, t, d, plans[j].count, order));
  }

  /** Nor a crawl target: one crawl that is not cut short by a transient portal failure finishes it. */
  lemma NoCrawlTargetIsWedged(s0: State, steps: seq<Step>, o: nat, w: nat, k: nat, wait: nat, due: seq<Target>,
                              limit: nat, plans: seq<Plan>, j: nat, staged: nat, complete: bool, anyErrors: bool)
    returns (d: nat)
    requires Init(s0) && ValidRun(s0, steps)
    requires var s := Run(s0, steps);
             Ready(s, o, k, wait, due, limit, plans, j) && plans[j].Dispatch? &&
             s.targets[k].source.LegalCodes? && w !in s.workers
    ensures
      var s := Run(s0, steps);
      var t := s.targets[k];
      var run := Cycle(o, t.corpus, wait, due, limit, plans) +
                 CrawlDelivery(w, TaskFor(t, d, 0, 1), staged, complete, anyErrors);
      ValidRun(s, run) && Settled(Run(s, run), k)
  {
    ReachableInv(s0, steps);
    var s := Run(s0, steps);
    var t := s.targets[k];
    var cycle := Cycle(o, t.corpus, wait, due, limit, plans);
    d := CycleStampsRow(s, o, k, wait, due, limit, plans, j);
    assert RowOk(s, k) && d !in s.stamps;
    FreshDispatch(s, d);
    assert Fits(plans[j], due[j]);
    CrawlSettles(Run(s, cycle), w, TaskFor(t, d, 0, 1), staged, complete, anyErrors);
    RunConcat(s, cycle, CrawlDelivery(w, TaskFor(t, d, 0, 1), staged, complete, anyErrors));
  }
}
