/** The harvester's tables, counters and queues as one mutable object, whose every operation is one step of the
    protocol.

    The ghost fields say where each running worker and orchestrator stands. `kept` is any set of states that no step
    of the protocol leaves; the object stays in it, so it keeps whatever every step of the protocol keeps. */
module HarvestWorld {
  import opened Options
  import opened HarvestTables
  import opened HarvestProtocol
  import opened HarvestInvariant
  import opened HarvestSafety

  class World {
    var resweepDays: nat
    var now: Time
    var switches: map<string, RunState>
    var targets: map<nat, Target>
    var history: seq<HistoryRow>
    var counters: map<nat, Counts>
    var sent: set<Task>
    var nextId: nat
    ghost var workers: map<nat, Worker>
    ghost var orchestrators: map<nat, Orchestrator>
    ghost var stamps: map<nat, Stamp>
    ghost var inCounter: map<nat, set<nat>>
    ghost var increments: multiset<(nat, nat)>
    ghost var log: seq<Event>
    ghost const kept: iset<State>

    ghost function View(): State
      reads this
    {
      State(resweepDays, now, switches, targets, history, counters, sent, nextId, workers, orchestrators,
            stamps, inCounter, increments, log)
    }

    ghost predicate Valid()
      reads this
    {
      Closed(kept) && View() in kept
    }

    constructor (resweepDays: nat, now: Time, switches: map<string, RunState>, targets: map<nat, Target>,
      ghost kept: iset<State>)
      requires Closed(kept)
      requires State(resweepDays, now, switches, targets, [], map[], {}, 0, map[], map[], map[], map[], multiset{},
        []) in kept
      ensures Valid() && this.kept == kept
      ensures View() == State(resweepDays, now, switches, targets, [], map[], {}, 0, map[], map[], map[], map[],
        multiset{}, [])
    {
      this.resweepDays, this.now, this.switches, this.targets := resweepDays, now, switches, targets;
      history, counters, sent, nextId := [], map[], {}, 0;
      workers, orchestrators, stamps, inCounter, increments, log := map[], map[], map[], map[], multiset{}, [];
      this.kept := kept;
    }

    /** Moves the ghost side along with what the real fields have just done. */
    ghost method Follow(after: State)
      requires Closed(kept) && after in kept
      requires resweepDays == after.resweepDays && now == after.now && switches == after.switches &&
        targets == after.targets
      requires history == after.history && counters == after.counters && sent == after.sent && nextId == after.nextId
      modifies this`workers, this`orchestrators, this`stamps, this`inCounter, this`increments, this`log
      ensures Valid() && View() == after
    {
      workers, orchestrators, stamps := after.workers, after.orchestrators, after.stamps;
      inCounter, increments, log := after.inCounter, after.increments, after.log;
    }

    method AdvanceClock(dt: nat)
      requires Valid()
      modifies this`now, this`workers, this`orchestrators, this`stamps, this`inCounter, this`increments, this`log
      ensures Valid() && View() == old(View()).(now := old(now) + dt)
    {
      ghost var before := View();
      now := now + dt;
      Follow(Apply(before, Tick(dt)));
    }

    // ---- the datastore

    method SetRunState(corpus: string, to: RunState)
      requires Valid()
      modifies this`switches, this`workers, this`orchestrators, this`stamps, this`inCounter, this`increments, this`log
      ensures Valid() && View() == old(View()).(switches := old(switches)[corpus := to])
    {
      ghost var before := View();
      switches := switches[corpus := to];
      Follow(Apply(before, Switch(corpus, to)));
    }

    /** A target is only stamped over the stamp the caller saw. */
    method StampTarget(target: nat, at: Time, id: nat, count: nat, seenId: Option<nat>, seenAt: Option<Time>)
        returns (won: bool)
      requires target in targets
      modifies this`targets
      ensures won == StampMatches(old(targets)[target], seenId, seenAt)
      ensures targets == if won then old(targets)[target := Stamped(old(targets)[target], at, id,
        count)] else old(targets)
      ensures won == (old(targets)[target].dispatchId == seenId && old(targets)[target].dispatchedAt == seenAt)
      ensures won ==> targets == old(targets)[target := old(targets)[target].(dispatchedAt := Some(at),
        dispatchId := Some(id), queryCount := Some(count))]
    {
      won := targets[target].dispatchId == seenId && targets[target].dispatchedAt == seenAt;
      if won { targets := targets[target := targets[target].(dispatchedAt := Some(at), dispatchId := Some(id),
        queryCount := Some(count))]; }
    }

    /** A target is only finalized while it carries the caller's dispatch. */
    method FinalizeTarget(target: nat, id: nat, result: SweepResult, due: Time) returns (finalized: bool)
      modifies this`targets
      ensures finalized == Holds(old(targets), target, id) && targets == Finalize(old(targets), target, id, result, due)
      ensures finalized == (target in old(targets) && old(targets)[target].dispatchId == Some(id))
      ensures finalized ==> targets == old(targets)[target := old(targets)[target].(lastResult := Some(result),
        nextDueAt := due, dispatchedAt := None, dispatchId := None, queryCount := None)]
    {
      finalized := target in targets && targets[target].dispatchId == Some(id);
      if finalized { targets := targets[target := Cleared(targets[target], result, due)]; }
    }

    /** One row per (dispatch, query); a second one is refused. */
    method InsertHistoryRow(row: HistoryRow) returns (inserted: bool)
      modifies this`history
      ensures inserted == !HasKey(old(history), row.dispatchId, row.querySeq) &&
        history == InsertHistory(old(history), row)
    {
      for i := 0 to |history|
        invariant forall k :: 0 <= k < i ==> !IsKey(history[k], row.dispatchId, row.querySeq)
      {
        if IsKey(history[i], row.dispatchId, row.querySeq) { return false; }
      }
      history := history + [row];
      inserted := true;
    }

    method HistoryHas(corpus: string, jurisdiction: nat, id: nat, sq: nat) returns (found: bool)
      ensures found == HasRow(history, corpus, jurisdiction, id, sq)
    {
      for i := 0 to |history|
        invariant forall k :: 0 <= k < i ==>
          !(IsKey(history[k], id, sq) && history[k].corpus == corpus && history[k].jurisdiction == jurisdiction)
      {
        if IsKey(history[i], id, sq) && history[i].corpus == corpus &&
          history[i].jurisdiction == jurisdiction { return true; }
      }
      found := false;
    }

    // ---- the counters

    /** Expiry or a failover takes a counter away. */
    method LoseCounter(id: nat)
      requires Valid()
      modifies this`counters, this`workers, this`orchestrators, this`stamps, this`inCounter, this`increments, this`log
      ensures Valid() && counters == old(counters) - {id} && workers == old(workers)
    {
      ghost var before := View();
      counters := counters - {id};
      Follow(Apply(before, HarvestProtocol.LoseCounter(id)));
    }

    method Hincrby(id: nat, staged: nat, errored: bool) returns (counts: Counts)
      modifies this`counters
      ensures counters == Bump(old(counters), id, staged, errored) && counts == counters[id]
    {
      var c := if id in counters then counters[id] else Counts(0, 0, 0);
      counts := Counts(c.done + 1, c.candidates + staged, c.errors + if errored then 1 else 0);
      counters := counters[id := counts];
    }
  }

  /** No step of the protocol leads out of the set. */
  ghost predicate Closed(kept: iset<State>) {
    forall s, step :: s in kept && Enabled(s, step) ==> Apply(s, step) in kept
  }

  /** The protocol's invariant is such a set. */
  lemma InvariantIsClosed()
    ensures Closed(iset s | Inv(s))
  {
    forall s, step | Inv(s) && Enabled(s, step) ensures Inv(Apply(s, step)) { StepKeepsInv(s, step); }
  }
}
