/** When handlers of one corpus overlap: which commits make a second fetched row for the same bytes. No assumption on
    who handles what: handlers may overlap on a corpus and even on a row. */
module FetchOverlap {
  import opened Options
  import opened FetchProtocol

  ghost predicate HoldsBytes(s: State, k: nat, corpus: string, sha: string) {
    k in s.artifacts && s.artifacts[k].status.Fetched? && s.artifacts[k].corpus == corpus &&
    s.artifacts[k].sha == Some(sha)
  }

  /** A handler's last effect on its row: the step, and what the handler held. */
  datatype Write = Write(step: Step, pc: Worker)

  predicate WritesRow(step: Step) {
    step.DeadLink? || step.Attempt? || step.NotADocument? || step.MarkDuplicate? || step.Commit?
  }

  ghost function WriteOf(s: State, step: Step, k: nat): Option<Write>
    requires Enabled(s, step)
  {
    if WritesRow(step) && s.workers[step.w].row.id == k && k in s.artifacts
    then Some(Write(step, s.workers[step.w])) else None
  }

  /** The last write any handler made to row `k` during the run. */
  ghost function LastWrite(s: State, steps: seq<Step>, k: nat): Option<Write>
    requires ValidRun(s, steps)
    decreases |steps|
  {
    if steps == [] then None
    else
      var later := LastWrite(Apply(s, steps[0]), steps[1..], k);
      if later.Some? then later else WriteOf(s, steps[0], k)
  }

  /** Some handler stored these bytes for row `k` during the run, and no handler wrote the row after that. */
  ghost predicate StoredFor(s: State, steps: seq<Step>, k: nat, corpus: string, sha: string)
    requires ValidRun(s, steps)
  {
    var last := LastWrite(s, steps, k);
    last.Some? && Stores(last.value, corpus, sha)
  }

  predicate Stores(write: Write, corpus: string, sha: string) {
    write.step.Commit? && write.pc.Stored? && write.pc.row.corpus == corpus && write.pc.sha == sha
  }

  // ---- what every run keeps, overlapping or not

  ghost predicate Kept(s: State) {
    (forall k :: k in s.artifacts ==> k < s.nextId) &&
    forall v :: v in s.workers ==> s.workers[v].row.status.Pending?
  }

  lemma StepKeeps(s: State, step: Step)
    requires Kept(s) && Enabled(s, step)
    ensures Kept(Apply(s, step))
  {
  }

  lemma {:induction false} RunKeeps(s: State, steps: seq<Step>)
    requires Kept(s) && ValidRun(s, steps)
    ensures Kept(Run(s, steps))
    decreases |steps|
  {
    if steps != [] {
      StepKeeps(s, steps[0]);
      RunKeeps(Apply(s, steps[0]), steps[1..]);
    }
  }

  lemma StepWrites(s: State, step: Step, k: nat, corpus: string, sha: string)
    requires Kept(s) && Enabled(s, step)
    ensures var write := WriteOf(s, step, k);
      HoldsBytes(Apply(s, step), k, corpus, sha) <==>
        if write.None? then HoldsBytes(s, k, corpus, sha) else Stores(write.value, corpus, sha)
  {
  }

  /** After a run a row holds the bytes exactly when its last write stored them, or it held them and was not written. */
  lemma {:induction false} RunWrites(s: State, steps: seq<Step>, k: nat, corpus: string, sha: string)
    requires Kept(s) && ValidRun(s, steps)
    ensures var last := LastWrite(s, steps, k);
      HoldsBytes(Run(s, steps), k, corpus, sha) <==>
        if last.None? then HoldsBytes(s, k, corpus, sha) else Stores(last.value, corpus, sha)
    decreases |steps|
  {
    if steps != [] {
      StepKeeps(s, steps[0]);
      StepWrites(s, steps[0], k, corpus, sha);
      RunWrites(Apply(s, steps[0]), steps[1..], k, corpus, sha);
    }
  }

  // ---- a handler between its duplicate check and its commit

  ghost predicate Past(s: State, w: nat, row: Artifact, sha: string) {
    w in s.workers && (s.workers[w].Storing? || s.workers[w].Stored?) && s.workers[w].row == row &&
    s.workers[w].sha == sha
  }

  predicate Ends(step: Step, w: nat) { step == Crash(w) || step == Commit(w) }

  lemma {:induction false} StaysPast(s: State, steps: seq<Step>, w: nat, row: Artifact, sha: string)
    requires Past(s, w, row, sha) && ValidRun(s, steps) && forall i :: 0 <= i < |steps| ==> !Ends(steps[i], w)
    ensures Past(Run(s, steps), w, row, sha)
    decreases |steps|
  {
    if steps != [] {
      assert !Ends(steps[0], w);
      StaysPast(Apply(s, steps[0]), steps[1..], w, row, sha);
    }
  }

  /** The row of a handler and another row of its corpus are both fetched with the same bytes. */
  ghost predicate FetchedTwice(s: State, row: Artifact, sha: string) {
    HoldsBytes(s, row.id, row.corpus, sha) && exists k :: k != row.id && HoldsBytes(s, k, row.corpus, sha)
  }

  /** A handler's duplicate check misses, and `steps` later it commits: its commit makes a second fetched row for the
      bytes exactly when its own row is still there and a handler of another row of the corpus stored them since the
      check, with no later write to that row. */
  lemma WhenACommitFetchesTwice(init: State, before: seq<Step>, steps: seq<Step>, w: nat)
    requires Init(init) && ValidRun(init, before + [CheckTable(w)])
    requires var s := Run(init, before + [CheckTable(w)]);
      w in s.workers && s.workers[w].Storing? && ValidRun(s, steps) && Enabled(Run(s, steps), Commit(w)) &&
      forall i :: 0 <= i < |steps| ==> !Ends(steps[i], w)
    ensures var s := Run(init, before + [CheckTable(w)]); var pc := s.workers[w];
      FetchedTwice(Apply(Run(s, steps), Commit(w)), pc.row, pc.sha) <==>
        pc.row.id in Run(s, steps).artifacts &&
        exists k :: k != pc.row.id && StoredFor(s, steps, k, pc.row.corpus, pc.sha)
  {
    var s := Run(init, before + [CheckTable(w)]);
    RunKeeps(init, before + [CheckTable(w)]);
    LastIsCheck(init, before, w);
    AfterCheck(s, steps, w);
  }

  lemma {:induction false} LastIsCheck(s: State, before: seq<Step>, w: nat)
    requires ValidRun(s, before + [CheckTable(w)])
    ensures var r := Run(s, before + [CheckTable(w)]);
      (w in r.workers && r.workers[w].Storing?) ==>
        !HasSha(r.artifacts, r.workers[w].row.corpus, r.workers[w].sha, r.workers[w].row.id)
    decreases |before|
  {
    var all := before + [CheckTable(w)];
    if before == [] {
      assert all[0] == CheckTable(w) && all[1..] == [];
    } else {
      assert all[1..] == before[1..] + [CheckTable(w)];
      LastIsCheck(Apply(s, all[0]), before[1..], w);
    }
  }

  lemma AfterCheck(s: State, steps: seq<Step>, w: nat)
    requires Kept(s) && ValidRun(s, steps) && w in s.workers && s.workers[w].Storing?
    requires !HasSha(s.artifacts, s.workers[w].row.corpus, s.workers[w].sha, s.workers[w].row.id)
    requires Enabled(Run(s, steps), Commit(w)) && forall i :: 0 <= i < |steps| ==> !Ends(steps[i], w)
    ensures var pc := s.workers[w];
      FetchedTwice(Apply(Run(s, steps), Commit(w)), pc.row, pc.sha) <==>
        pc.row.id in Run(s, steps).artifacts &&
        exists k :: k != pc.row.id && StoredFor(s, steps, k, pc.row.corpus, pc.sha)
  {
    var pc, r := s.workers[w], Run(s, steps);
    StaysPast(s, steps, w, pc.row, pc.sha);
    RunKeeps(s, steps);
    StepWrites(r, Commit(w), pc.row.id, pc.row.corpus, pc.sha);
    forall k: nat | k != pc.row.id
      ensures HoldsBytes(Apply(r, Commit(w)), k, pc.row.corpus, pc.sha) <==>
        StoredFor(s, steps, k, pc.row.corpus, pc.sha)
    {
      StepWrites(r, Commit(w), k, pc.row.corpus, pc.sha);
      RunWrites(s, steps, k, pc.row.corpus, pc.sha);
    }
  }
}
