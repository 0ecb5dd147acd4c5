/** The dispatch cycle: pick due targets, generate, compare-and-set the stamp, then send. */
module Dispatching {
  import opened Options
  import opened HarvestTables
  import opened HarvestProtocol
  import opened HarvestWorld
  import opened HarvestRecovery

  // ---- what a cycle does to rows and messages

  datatype Outbox = Outbox(targets: map<nat, Target>, sent: set<Task>, nextId: nat)

  function Tasks(t: Target, id: nat, n: nat, count: nat): set<Task> {
    if n == 0 then {} else Tasks(t, id, n - 1, count) + {TaskFor(t, id, n - 1, count)}
  }

  predicate StampWins(x: Outbox, t: Target) {
    t.id in x.targets && StampMatches(x.targets[t.id], t.dispatchId, t.dispatchedAt)
  }

  function DispatchOne(x: Outbox, t: Target, p: Plan, at: Time, resweepDays: nat): Outbox {
    if t.id !in x.targets then x
    else match p
      case GiveUp => x
      case NoSeeds => x.(targets := x.targets[t.id := Cleared(x.targets[t.id], Error, at + DAY * resweepDays)])
      case Dispatch(n) =>
        if StampWins(x, t)
        then Outbox(x.targets[t.id := Stamped(x.targets[t.id], at, x.nextId, n)], x.sent + Tasks(t, x.nextId, n, n),
          x.nextId + 1)
        else x
  }

  /** The first `n` listed rows, each by its plan. */
  function DispatchFirst(x: Outbox, todo: seq<Target>, plans: seq<Plan>, n: nat, at: Time, resweepDays: nat): Outbox
    requires n <= |todo| == |plans|
  {
    if n == 0 then x
    else DispatchOne(DispatchFirst(x, todo, plans, n - 1, at, resweepDays), todo[n - 1], plans[n - 1], at, resweepDays)
  }

  /** The ids of the listed rows differ, and each listed row is the current one. */
  ghost predicate Snapshots(targets: map<nat, Target>, todo: seq<Target>) {
    (forall i :: 0 <= i < |todo| ==> todo[i].id in targets && targets[todo[i].id] == todo[i]) &&
    forall i, j :: 0 <= i < j < |todo| ==> todo[i].id != todo[j].id
  }

  predicate InFirst(todo: seq<Target>, n: nat, k: nat) { exists i :: 0 <= i < n <= |todo| && todo[i].id == k }

  /** The row of `todo[i]` after its plan. */
  ghost predicate RowPlanned(x: Outbox, y: Outbox, t: Target, p: Plan, at: Time, resweepDays: nat) {
    t.id in y.targets &&
    match p
    case GiveUp => y.targets[t.id] == t
    case NoSeeds =>
      y.targets[t.id] == t.(lastResult := Some(Error), nextDueAt := at + 86400 * resweepDays, dispatchedAt := None,
        dispatchId := None, queryCount := None)
    case Dispatch(n) =>
      exists d: nat :: x.nextId <= d < y.nextId &&
        y.targets[t.id] == t.(dispatchedAt := Some(at), dispatchId := Some(d), queryCount := Some(n)) &&
        forall q: nat :: q < n ==> Task(t.source, t.corpus, t.id, t.jurisdiction, d, q, n) in y.sent
  }

  /** A queued message names its row's current stamp and that stamp's query count. */
  ghost predicate CarriesStamp(targets: map<nat, Target>, task: Task) {
    Holds(targets, task.target, task.dispatchId) && targets[task.target].queryCount == Some(task.queryCount)
  }

  lemma {:induction false} TasksAre(t: Target, id: nat, n: nat, count: nat)
    ensures forall task :: task in Tasks(t, id, n, count) <==>
      exists q: nat :: q < n && task == TaskFor(t, id, q, count)
  {
    if n > 0 { TasksAre(t, id, n - 1, count); }
  }

  /** Every handled row follows its plan, other rows stay, and every new message carries the stamp of its row. */
  lemma {:induction false} CycleFollowsPlans(x: Outbox, todo: seq<Target>, plans: seq<Plan>, n: nat, at: Time,
                                             resweepDays: nat)
    requires n <= |todo| == |plans| && Snapshots(x.targets, todo)
    ensures var y := DispatchFirst(x, todo, plans, n, at, resweepDays);
      (forall i :: 0 <= i < n ==> RowPlanned(x, y, todo[i], plans[i], at, resweepDays)) &&
      (forall k :: k in x.targets && !InFirst(todo, n, k) ==> k in y.targets && y.targets[k] == x.targets[k]) &&
      (forall task :: task in y.sent && task !in x.sent ==>
        InFirst(todo, n, task.target) && CarriesStamp(y.targets, task)) &&
      x.sent <= y.sent && x.nextId <= y.nextId
    decreases n
  {
    if n > 0 {
      var t, p := todo[n - 1], plans[n - 1];
      CycleFollowsPlans(x, todo, plans, n - 1, at, resweepDays);
      var mid := DispatchFirst(x, todo, plans, n - 1, at, resweepDays);
      assert !InFirst(todo, n - 1, t.id);
      OnePlan(mid, t, p, at, resweepDays);
      var y := DispatchFirst(x, todo, plans, n, at, resweepDays);
      forall i | 0 <= i < n - 1 ensures RowPlanned(x, y, todo[i], plans[i], at, resweepDays) {
        assert todo[i].id != t.id;
        PlanStays(x, mid, y, todo[i], plans[i], at, resweepDays);
      }
      PlanCounts(x, mid, y, t, p, at, resweepDays);
      forall k | InFirst(todo, n - 1, k) ensures InFirst(todo, n, k) {
        var i :| 0 <= i < n - 1 && todo[i].id == k;
      }
      assert InFirst(todo, n, t.id);
    }
  }

  lemma PlanStays(x: Outbox, mid: Outbox, y: Outbox, t: Target, p: Plan, at: Time, resweepDays: nat)
    requires RowPlanned(x, mid, t, p, at, resweepDays) && t.id in y.targets && y.targets[t.id] == mid.targets[t.id]
    requires mid.sent <= y.sent && mid.nextId <= y.nextId
    ensures RowPlanned(x, y, t, p, at, resweepDays)
  {
  }

  lemma PlanCounts(x: Outbox, mid: Outbox, y: Outbox, t: Target, p: Plan, at: Time, resweepDays: nat)
    requires RowPlanned(mid, y, t, p, at, resweepDays) && x.nextId <= mid.nextId
    ensures RowPlanned(x, y, t, p, at, resweepDays)
  {
  }

  lemma OnePlan(x: Outbox, t: Target, p: Plan, at: Time, resweepDays: nat)
    requires t.id in x.targets && x.targets[t.id] == t
    ensures var y := DispatchOne(x, t, p, at, resweepDays);
      RowPlanned(x, y, t, p, at, resweepDays) && x.sent <= y.sent && x.nextId <= y.nextId &&
      (forall k :: k in x.targets && k != t.id ==> k in y.targets && y.targets[k] == x.targets[k]) &&
      forall task :: task in y.sent && task !in x.sent ==> task.target == t.id && CarriesStamp(y.targets, task)
  {
    if p.Dispatch? {
      TasksAre(t, x.nextId, p.count, p.count);
      var y := DispatchOne(x, t, p, at, resweepDays);
      forall q: nat | q < p.count
        ensures Task(t.source, t.corpus, t.id, t.jurisdiction, x.nextId, q, p.count) in y.sent
      {
        assert TaskFor(t, x.nextId, q, p.count) in y.sent;
      }
    }
  }

  // ---- picking the due targets

  /** `due` lists exactly the due rows among `done`, in dispatch order. */
  ghost predicate IsDueAmong(targets: map<nat, Target>, done: set<nat>, corpus: string, now: Time, due: seq<Target>) {
    Sorted(due) &&
    (forall i :: 0 <= i < |due| ==>
      due[i].id in done && due[i].id in targets && targets[due[i].id] == due[i] && Due(due[i], corpus, now)) &&
    forall k :: k in done && k in targets && Due(targets[k], corpus, now) ==> targets[k] in due
  }

  method Place(due: seq<Target>, t: Target) returns (more: seq<Target>)
    requires Sorted(due) && forall i :: 0 <= i < |due| ==> due[i].id != t.id
    ensures Sorted(more) && forall x :: x in more <==> x in due || x == t
  {
    var i := |due|;
    while i > 0 && Before(t, due[i - 1])
      invariant 0 <= i <= |due| && forall k :: i <= k < |due| ==> Before(t, due[k])
    {
      i := i - 1;
    }
    forall k | 0 <= k < i ensures Before(due[k], t) {
      Ordered(due[i - 1], t);
      if k < i - 1 { Transitive(due[k], due[i - 1], t); }
    }
    more := Between(due, i, t);
  }

  method Between(due: seq<Target>, i: nat, t: Target) returns (more: seq<Target>)
    requires Sorted(due) && i <= |due|
    requires (forall k :: 0 <= k < i ==> Before(due[k], t)) && forall k :: i <= k < |due| ==> Before(t, due[k])
    ensures Sorted(more) && forall x :: x in more <==> x in due || x == t
  {
    more := due[..i] + [t] + due[i..];
    assert due == due[..i] + due[i..];
  }

  lemma Ordered(a: Target, b: Target)
    requires a.id != b.id
    ensures Before(a, b) || Before(b, a)
  {
  }

  lemma Transitive(a: Target, b: Target, c: Target)
    requires Before(a, b) && Before(b, c)
    ensures Before(a, c)
  {
  }

  /** `todo` holds due rows in dispatch order, at most `limit`; a due row left out comes after all of a full batch. */
  ghost predicate IsDueBatch(targets: map<nat, Target>, corpus: string, now: Time, limit: nat, todo: seq<Target>) {
    Sorted(todo) && |todo| <= limit &&
    (forall i :: 0 <= i < |todo| ==>
      todo[i].id in targets && targets[todo[i].id] == todo[i] && Due(todo[i], corpus, now)) &&
    forall k :: k in targets && Due(targets[k], corpus, now) && targets[k] !in todo ==>
      |todo| == limit && forall i :: 0 <= i < |todo| ==> Before(todo[i], targets[k])
  }

  lemma BatchOfDueList(targets: map<nat, Target>, corpus: string, now: Time, limit: nat, due: seq<Target>)
    requires IsDueList(targets, corpus, now, due)
    ensures IsDueBatch(targets, corpus, now, limit, HarvestTables.Take(due, limit))
  {
    var todo := HarvestTables.Take(due, limit);
    forall k | k in targets && Due(targets[k], corpus, now) && targets[k] !in todo
      ensures |todo| == limit && forall i :: 0 <= i < |todo| ==> Before(todo[i], targets[k])
    {
      var j :| 0 <= j < |due| && due[j] == targets[k];
      assert forall i :: 0 <= i < |todo| ==> todo[i] == due[i] && todo[i] in todo;
      assert forall i :: 0 <= i < |todo| ==> Before(due[i], due[j]);
    }
  }

  /** A row to dispatch: due, and not stamped within half an hour (a sweep) or two hours (a crawl). */
  ghost predicate Dispatchable(t: Target, corpus: string, now: Time) {
    t.corpus == corpus && t.nextDueAt <= now &&
    (t.dispatchedAt == None || t.dispatchedAt.value + (if t.source.Serper? then 1800 else 7200) <= now)
  }

  /** Lower priority number first, then the earlier due time, then the lower id. */
  ghost predicate Precedes(a: Target, b: Target) {
    a.priority <= b.priority &&
    (a.priority == b.priority ==> a.nextDueAt <= b.nextDueAt && (a.nextDueAt == b.nextDueAt ==> a.id < b.id))
  }

  /** The rows a cycle takes: dispatchable ones in order, and none it leaves out precedes any of them. */
  ghost predicate Picked(targets: map<nat, Target>, corpus: string, now: Time, limit: nat, todo: seq<Target>) {
    |todo| <= limit &&
    (forall i :: 0 <= i < |todo| ==>
      todo[i].id in targets && targets[todo[i].id] == todo[i] && Dispatchable(todo[i], corpus, now)) &&
    (forall i, j :: 0 <= i < j < |todo| ==> Precedes(todo[i], todo[j])) &&
    forall k :: k in targets && Dispatchable(targets[k], corpus, now) && targets[k] !in todo ==>
      |todo| == limit && forall i :: 0 <= i < |todo| ==> Precedes(todo[i], targets[k])
  }

  lemma BatchIsPicked(targets: map<nat, Target>, corpus: string, now: Time, limit: nat, todo: seq<Target>)
    requires IsDueBatch(targets, corpus, now, limit, todo)
    ensures Picked(targets, corpus, now, limit, todo)
  {
    forall k | k in targets && Dispatchable(targets[k], corpus, now) ensures Due(targets[k], corpus, now) {}
  }

  method SelectDue(w: World, corpus: string, limit: nat) returns (todo: seq<Target>, ghost due: seq<Target>)
    requires forall k :: k in w.targets ==> w.targets[k].id == k
    ensures IsDueList(w.targets, corpus, w.now, due) && todo == HarvestTables.Take(due, limit)
    ensures IsDueBatch(w.targets, corpus, w.now, limit, todo) && Picked(w.targets, corpus, w.now, limit, todo)
  {
    todo := [];
    var rest := w.targets.Keys;
    while rest != {}
      invariant rest <= w.targets.Keys && IsDueAmong(w.targets, w.targets.Keys - rest, corpus, w.now, todo)
      decreases |rest|
    {
      var k :| k in rest;
      if Due(w.targets[k], corpus, w.now) {
        var was := todo;
        todo := Place(was, w.targets[k]);
        forall i | 0 <= i < |todo| ensures todo[i] in was || todo[i] == w.targets[k] { assert todo[i] in todo; }
      }
      rest := rest - {k};
    }
    due := todo;
    BatchOfDueList(w.targets, corpus, w.now, limit, due);
    if |todo| > limit { todo := todo[..limit]; }
    BatchIsPicked(w.targets, corpus, w.now, limit, todo);
  }

  lemma DueAreSnapshots(targets: map<nat, Target>, corpus: string, now: Time, due: seq<Target>, todo: seq<Target>)
    requires IsDueList(targets, corpus, now, due) && todo <= due
    ensures Snapshots(targets, todo)
  {
    forall i, j | 0 <= i < j < |todo| ensures todo[i].id != todo[j].id { assert Before(due[i], due[j]); }
  }

  // ---- the cycle

  ghost function OutboxOf(w: World): Outbox
    reads w
  {
    Outbox(w.targets, w.sent, w.nextId)
  }

  ghost method Move(w: World, o: nat, step: Step, pc: Orchestrator)
    requires w.Valid() && Enabled(w.View(), step)
    requires Apply(w.View(), step) == w.View().(orchestrators := w.orchestrators[o := pc])
    modifies w`workers, w`orchestrators, w`stamps, w`inCounter, w`increments, w`log
    ensures w.Valid() && w.View() == old(w.View()).(orchestrators := old(w.orchestrators)[o := pc])
  {
    w.Follow(Apply(w.View(), step));
  }

  /** Sends query `q` of the stamped dispatch. */
  method SendOne(w: World, ghost o: nat, t: Target, q: nat, ghost pc: Orchestrator, id: nat, count: nat)
    requires w.Valid() && o in w.orchestrators && w.orchestrators[o] == pc && pc.Sending? && |pc.todo| > 0
    requires pc.todo[0] == t && pc.id == id && pc.count == count && pc.next == q < count
    modifies w`sent, w`workers, w`orchestrators, w`stamps, w`inCounter, w`increments, w`log
    ensures w.Valid() && w.sent == old(w.sent) + {TaskFor(t, id, q, count)}
    ensures w.orchestrators == old(w.orchestrators)[o :=
      if q + 1 < count then pc.(next := q + 1) else Selected(pc.corpus, pc.at, pc.todo[1..])]
  {
    ghost var before := w.View();
    w.sent := w.sent + {TaskFor(t, id, q, count)};
    assert Enabled(before, Send(o)) && Apply(before, Send(o)) == DoSend(before, o);
    w.Follow(DoSend(before, o));
  }

  method SendTasks(w: World, ghost o: nat, t: Target, ghost pc: Orchestrator, id: nat, count: nat)
    requires w.Valid() && o in w.orchestrators && w.orchestrators[o] == pc && pc.Sending? && |pc.todo| > 0
    requires pc.todo[0] == t && pc.id == id && pc.count == count > 0 && pc.next == 0
    modifies w`sent, w`workers, w`orchestrators, w`stamps, w`inCounter, w`increments, w`log
    ensures w.Valid() && w.sent == old(w.sent) + Tasks(t, id, count, count)
    ensures w.orchestrators == old(w.orchestrators)[o := Selected(pc.corpus, pc.at, pc.todo[1..])]
  {
    for q := 0 to count
      invariant w.Valid() && w.sent == old(w.sent) + Tasks(t, id, q, count)
      invariant w.orchestrators == old(w.orchestrators)[o :=
        if q < count then pc.(next := q) else Selected(pc.corpus, pc.at, pc.todo[1..])]
    {
      SendOne(w, o, t, q, if q == 0 then pc else pc.(next := q), id, count);
    }
  }

  /** Stamp, then send; the loser of the compare-and-set sends nothing. */
  method StampAndSend(w: World, ghost o: nat, t: Target, ghost pc: Orchestrator, at: Time, count: nat)
      returns (won: bool)
    requires w.Valid() && o in w.orchestrators && w.orchestrators[o] == pc && pc.Selected? && |pc.todo| > 0
    requires pc.todo[0] == t && pc.at == at && t.id in w.targets && Fits(Dispatch(count), t)
    modifies w`targets, w`sent, w`nextId, w`workers, w`orchestrators, w`stamps, w`inCounter, w`increments, w`log
    ensures w.Valid() && won == StampWins(old(OutboxOf(w)), t)
    ensures OutboxOf(w) == DispatchOne(old(OutboxOf(w)), t, Dispatch(count), at, w.resweepDays)
    ensures w.orchestrators == old(w.orchestrators)[o := Selected(pc.corpus, pc.at, pc.todo[1..])]
  {
    var id := w.nextId;
    won := Stamp(w, o, t, pc, at, count);
    if won { SendTasks(w, o, t, Sending(pc.corpus, at, pc.todo, id, count, 0), id, count); }
  }

  method Stamp(w: World, ghost o: nat, t: Target, ghost pc: Orchestrator, at: Time, count: nat) returns (won: bool)
    requires w.Valid() && o in w.orchestrators && w.orchestrators[o] == pc && pc.Selected? && |pc.todo| > 0
    requires pc.todo[0] == t && pc.at == at && t.id in w.targets && Fits(Dispatch(count), t)
    modifies w`targets, w`nextId, w`workers, w`orchestrators, w`stamps, w`inCounter, w`increments, w`log
    ensures w.Valid() && won == StampMatches(old(w.targets)[t.id], t.dispatchId, t.dispatchedAt)
    ensures w.nextId == old(w.nextId) + if won then 1 else 0
    ensures w.targets ==
      if won then old(w.targets)[t.id := Stamped(old(w.targets)[t.id], at, old(w.nextId), count)] else old(w.targets)
    ensures w.orchestrators == old(w.orchestrators)[o :=
      if won then Sending(pc.corpus, at, pc.todo, old(w.nextId), count, 0) else Selected(pc.corpus, at, pc.todo[1..])]
  {
    ghost var before := w.View();
    won := w.StampTarget(t.id, at, w.nextId, count, t.dispatchId, t.dispatchedAt);
    if won { w.nextId := w.nextId + 1; }
    assert Enabled(before, StampRow(o, count)) && Apply(before, StampRow(o, count)) == DoStamp(before, o, count);
    w.Follow(DoStamp(before, o, count));
  }

  /** No enabled seeds: the target is parked until the resweep, whatever stamp it carries. */
  method ParkTarget(w: World, ghost o: nat, t: Target, ghost pc: Orchestrator, at: Time)
    requires w.Valid() && o in w.orchestrators && w.orchestrators[o] == pc && pc.Selected? && |pc.todo| > 0
    requires pc.todo[0] == t && pc.at == at && t.id in w.targets && t.source.LegalCodes?
    modifies w`targets, w`workers, w`orchestrators, w`stamps, w`inCounter, w`increments, w`log
    ensures w.Valid() && w.targets == old(w.targets)[t.id := Cleared(old(w.targets)[t.id], Error,
      at + DAY * w.resweepDays)]
    ensures w.orchestrators == old(w.orchestrators)[o := Selected(pc.corpus, at, pc.todo[1..])]
  {
    ghost var before := w.View();
    w.targets := w.targets[t.id := Cleared(w.targets[t.id], Error, at + DAY * w.resweepDays)];
    assert Enabled(before, Park(o)) && Apply(before, Park(o)) == DoPark(before, o);
    w.Follow(DoPark(before, o));
  }

  /** One row of the cycle. */
  method DispatchTarget(w: World, ghost o: nat, t: Target, ghost pc: Orchestrator, at: Time, p: Plan) returns (ok: bool)
    requires w.Valid() && o in w.orchestrators && w.orchestrators[o] == pc && pc.Selected? && |pc.todo| > 0
    requires pc.todo[0] == t && pc.at == at && t.id in w.targets && Fits(p, t)
    modifies w`targets, w`sent, w`nextId, w`workers, w`orchestrators, w`stamps, w`inCounter, w`increments, w`log
    ensures w.Valid() && ok == (p.Dispatch? && StampWins(old(OutboxOf(w)), t))
    ensures OutboxOf(w) == DispatchOne(old(OutboxOf(w)), t, p, at, w.resweepDays)
    ensures w.orchestrators == old(w.orchestrators)[o := Selected(pc.corpus, pc.at, pc.todo[1..])]
  {
    match p
    case GiveUp =>
      Move(w, o, Step.Skip(o), Selected(pc.corpus, pc.at, pc.todo[1..]));
      ok := false;
    case NoSeeds =>
      ParkTarget(w, o, t, pc, at);
      ok := false;
    case Dispatch(count) =>
      ok := StampAndSend(w, o, t, pc, at, count);
  }

  function PlanOf(plans: map<nat, Plan>, t: Target): Plan { if t.id in plans then plans[t.id] else GiveUp }

  function PlansFor(plans: map<nat, Plan>, todo: seq<Target>): (list: seq<Plan>)
    ensures |list| == |todo| && forall i :: 0 <= i < |list| ==> list[i] == PlanOf(plans, todo[i])
  {
    if todo == [] then [] else PlansFor(plans, todo[..|todo| - 1]) + [PlanOf(plans, todo[|todo| - 1])]
  }

  ghost method StartCycle(w: World, o: nat, corpus: string, due: seq<Target>, limit: nat)
    requires w.Valid() && o !in w.orchestrators && corpus in w.switches && w.switches[corpus].Running?
    requires IsDueList(w.targets, corpus, w.now, due)
    modifies w`workers, w`orchestrators, w`stamps, w`inCounter, w`increments, w`log
    ensures w.Valid()
    ensures w.View() == old(w.View()).(orchestrators := old(w.orchestrators)[o := Selected(corpus, w.now,
      HarvestTables.Take(due, limit))])
  {
    Move(w, o, Start(o, corpus), Started(corpus, w.now));
    Move(w, o, Select(o, due, limit), Selected(corpus, w.now, HarvestTables.Take(due, limit)));
  }

  /** Every listed row is as its plan says, and every other row as it was. */
  ghost predicate Planned(x: Outbox, y: Outbox, todo: seq<Target>, plans: map<nat, Plan>, at: Time, resweepDays: nat) {
    (forall i :: 0 <= i < |todo| ==>
      RowPlanned(x, y, todo[i], if todo[i].id in plans then plans[todo[i].id] else GiveUp, at, resweepDays)) &&
    forall k :: k in x.targets && !InFirst(todo, |todo|, k) ==> k in y.targets && y.targets[k] == x.targets[k]
  }

  /** The positions among the first `n` whose rows the plans dispatch. */
  ghost function ToDispatch(todo: seq<Target>, plans: map<nat, Plan>, n: nat): set<nat>
    requires n <= |todo|
  {
    set i: nat | i < n && todo[i].id in plans && plans[todo[i].id].Dispatch?
  }

  lemma AllPlanned(x: Outbox, todo: seq<Target>, plans: map<nat, Plan>, at: Time, resweepDays: nat)
    requires Snapshots(x.targets, todo)
    ensures Planned(x, DispatchFirst(x, todo, PlansFor(plans, todo), |todo|, at, resweepDays), todo, plans, at,
      resweepDays)
  {
    CycleFollowsPlans(x, todo, PlansFor(plans, todo), |todo|, at, resweepDays);
  }

  /** One pass over the due targets of a running corpus. `plans` says what generation and seed lookup give each row. */
  method DispatchCycle(w: World, ghost o: nat, corpus: string, limit: nat, plans: map<nat, Plan>)
    returns (dispatched: nat, ghost todo: seq<Target>, ghost due: seq<Target>)
    requires w.Valid() && w.orchestrators == map[] && corpus in w.switches && w.switches[corpus].Running?
    requires forall k :: k in w.targets ==> w.targets[k].id == k && Fits(PlanOf(plans, w.targets[k]), w.targets[k])
    modifies w`targets, w`sent, w`nextId, w`workers, w`orchestrators, w`stamps, w`inCounter, w`increments, w`log
    ensures w.Valid() && w.orchestrators == map[]
    ensures IsDueList(old(w.targets), corpus, w.now, due) && todo == HarvestTables.Take(due, limit) &&
      Snapshots(old(w.targets), todo)
    ensures Picked(old(w.targets), corpus, w.now, limit, todo)
    ensures OutboxOf(w) == DispatchFirst(old(OutboxOf(w)), todo, PlansFor(plans, todo), |todo|, w.now, w.resweepDays)
    ensures dispatched == Dispatches(PlansFor(plans, todo), |todo|)
    ensures Planned(old(OutboxOf(w)), OutboxOf(w), todo, plans, w.now, w.resweepDays)
    ensures dispatched == |ToDispatch(todo, plans, |todo|)|
  {
    ghost var before := OutboxOf(w);
    var list, all := SelectDue(w, corpus, limit);
    todo, due := list, all;
    DueAreSnapshots(w.targets, corpus, w.now, all, list);
    dispatched := WorkThrough(w, o, corpus, limit, list, all, plans);
    AllPlanned(before, list, plans, w.now, w.resweepDays);
    DispatchesAre(list, plans, PlansFor(plans, list), |list|);
  }

  method WorkThrough(w: World, ghost o: nat, corpus: string, limit: nat, todo: seq<Target>, ghost due: seq<Target>,
                     plans: map<nat, Plan>)
    returns (dispatched: nat)
    requires w.Valid() && w.orchestrators == map[] && corpus in w.switches && w.switches[corpus].Running?
    requires IsDueList(w.targets, corpus, w.now, due) && todo == HarvestTables.Take(due, limit)
    requires Snapshots(w.targets, todo) && forall i :: 0 <= i < |todo| ==> Fits(PlanOf(plans, todo[i]), todo[i])
    modifies w`targets, w`sent, w`nextId, w`workers, w`orchestrators, w`stamps, w`inCounter, w`increments, w`log
    ensures w.Valid() && w.orchestrators == map[]
    ensures OutboxOf(w) == DispatchFirst(old(OutboxOf(w)), todo, PlansFor(plans, todo), |todo|, w.now, w.resweepDays)
    ensures dispatched == Dispatches(PlansFor(plans, todo), |todo|)
  {
    StartCycle(w, o, corpus, due, limit);
    dispatched := DispatchList(w, o, corpus, todo, plans);
    EndCycle(w, o);
  }

  ghost method EndCycle(w: World, o: nat)
    requires w.Valid() && w.orchestrators.Keys == {o}
    modifies w`workers, w`orchestrators, w`stamps, w`inCounter, w`increments, w`log
    ensures w.Valid() && w.orchestrators == map[]
  {
    var after := Apply(w.View(), Stop(o));
    assert after.orchestrators.Keys == {};
    w.Follow(after);
  }

  method DispatchList(w: World, ghost o: nat, corpus: string, todo: seq<Target>, plans: map<nat, Plan>)
      returns (dispatched: nat)
    requires w.Valid() && w.orchestrators == map[o := Selected(corpus, w.now, todo)]
    requires Snapshots(w.targets, todo) && forall i :: 0 <= i < |todo| ==> Fits(PlanOf(plans, todo[i]), todo[i])
    modifies w`targets, w`sent, w`nextId, w`workers, w`orchestrators, w`stamps, w`inCounter, w`increments, w`log
    ensures w.Valid() && w.orchestrators == map[o := Selected(corpus, w.now, [])]
    ensures OutboxOf(w) == DispatchFirst(old(OutboxOf(w)), todo, PlansFor(plans, todo), |todo|, w.now, w.resweepDays)
    ensures dispatched == Dispatches(PlansFor(plans, todo), |todo|)
  {
    dispatched := 0;
    ghost var before, list := OutboxOf(w), PlansFor(plans, todo);
    for i := 0 to |todo|
      invariant w.Valid() && w.orchestrators == map[o := Selected(corpus, w.now, todo[i..])] &&
        AllThere(w.targets, todo)
      invariant OutboxOf(w) == DispatchFirst(before, todo, list, i, w.now, w.resweepDays)
      invariant dispatched == Dispatches(list, i)
    {
      AloneWins(before, todo, list, i, w.now, w.resweepDays);
      var ok := DispatchNext(w, o, corpus, todo, i, PlanOf(plans, todo[i]));
      if ok { dispatched := dispatched + 1; }
    }
    assert todo[|todo|..] == [];
  }

  predicate AllThere(targets: map<nat, Target>, todo: seq<Target>) {
    forall i :: 0 <= i < |todo| ==> todo[i].id in targets
  }

  method DispatchNext(w: World, ghost o: nat, corpus: string, todo: seq<Target>, i: nat, p: Plan) returns (ok: bool)
    requires w.Valid() && i < |todo| && w.orchestrators == map[o := Selected(corpus, w.now, todo[i..])]
    requires AllThere(w.targets, todo) && Fits(p, todo[i])
    modifies w`targets, w`sent, w`nextId, w`workers, w`orchestrators, w`stamps, w`inCounter, w`increments, w`log
    ensures w.Valid() && w.orchestrators == map[o := Selected(corpus, w.now, todo[i + 1..])] &&
      AllThere(w.targets, todo)
    ensures ok == (p.Dispatch? && StampWins(old(OutboxOf(w)), todo[i]))
    ensures OutboxOf(w) == DispatchOne(old(OutboxOf(w)), todo[i], p, w.now, w.resweepDays)
  {
    assert todo[i..][1..] == todo[i + 1..];
    ok := DispatchTarget(w, o, todo[i], Selected(corpus, w.now, todo[i..]), w.now, p);
    KeysStay(old(OutboxOf(w)), todo[i], p, w.now, w.resweepDays);
  }

  lemma KeysStay(x: Outbox, t: Target, p: Plan, at: Time, resweepDays: nat)
    ensures x.targets.Keys <= DispatchOne(x, t, p, at, resweepDays).targets.Keys
  {
  }

  function Dispatches(plans: seq<Plan>, n: nat): nat
    requires n <= |plans|
  {
    if n == 0 then 0 else Dispatches(plans, n - 1) + if plans[n - 1].Dispatch? then 1 else 0
  }

  /** The count returned is that of the rows planned for dispatch. */
  lemma {:induction false} DispatchesAre(todo: seq<Target>, plans: map<nat, Plan>, list: seq<Plan>, n: nat)
    requires n <= |todo| == |list| && forall i :: 0 <= i < |list| ==> list[i] == PlanOf(plans, todo[i])
    ensures Dispatches(list, n) == |ToDispatch(todo, plans, n)|
  {
    if n > 0 {
      DispatchesAre(todo, plans, list, n - 1);
      OneMoreToDispatch(todo, plans, n);
      assert list[n - 1] == PlanOf(plans, todo[n - 1]);
    }
  }

  lemma OneMoreToDispatch(todo: seq<Target>, plans: map<nat, Plan>, n: nat)
    requires 0 < n <= |todo|
    ensures |ToDispatch(todo, plans, n)| ==
      |ToDispatch(todo, plans, n - 1)| + if PlanOf(plans, todo[n - 1]).Dispatch? then 1 else 0
  {
    var before, after, last := ToDispatch(todo, plans, n - 1), ToDispatch(todo, plans, n), n - 1;
    assert last !in before;
    if PlanOf(plans, todo[last]).Dispatch? {
      assert after == before + {last};
    } else {
      assert after == before;
    }
  }

  /** With no other orchestrator between select and stamp, every stamp wins. */
  lemma AloneWins(x: Outbox, todo: seq<Target>, plans: seq<Plan>, i: nat, at: Time, resweepDays: nat)
    requires Snapshots(x.targets, todo) && i < |todo| == |plans|
    ensures StampWins(DispatchFirst(x, todo, plans, i, at, resweepDays), todo[i])
  {
    CycleFollowsPlans(x, todo, plans, i, at, resweepDays);
    assert !InFirst(todo, i, todo[i].id);
  }
}
