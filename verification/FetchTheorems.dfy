/** What every run of the fetch machine keeps, and what overlapping handlers of one corpus break. */
module FetchTheorems {
  import opened Options
  import opened StorageKeys
  import opened FetchProtocol
  import opened FetchSafety

  ghost predicate Reachable(s: State, steps: seq<Step>) {
    Init(s) && ValidRun(s, steps) && NoOverlap(s, steps)
  }

  lemma ReachableInv(s: State, steps: seq<Step>)
    requires Reachable(s, steps)
    ensures Inv(Run(s, steps))
  {
    InitInv(s);
    RunKeepsInv(s, steps);
  }

  /** A pending row has attempts left and holds nothing; a failed one has used them all. */
  lemma AttemptsAreBounded(s: State, steps: seq<Step>, k: nat)
    requires Reachable(s, steps) && k in Run(s, steps).artifacts
    ensures var a := Run(s, steps).artifacts[k];
      (a.status.Pending? ==> a.attempts < 3 && a.sha.None?) && (a.status.Failed? ==> a.attempts == 3)
  {
    ReachableInv(s, steps);
    assert RowOk(Run(s, steps), k);
  }

  /** The same bytes are fetched at most once in a corpus, and the same URL is listed at most once. */
  lemma FetchedOnce(s: State, steps: seq<Step>, j: nat, k: nat)
    requires Reachable(s, steps) && j in Run(s, steps).artifacts && k in Run(s, steps).artifacts && j != k
    requires Run(s, steps).artifacts[j].corpus == Run(s, steps).artifacts[k].corpus
    ensures var a, b := Run(s, steps).artifacts[j], Run(s, steps).artifacts[k];
      a.url != b.url && (a.status.Fetched? && b.status.Fetched? ==> a.sha != b.sha)
  {
    ReachableInv(s, steps);
  }

  /** Every duplicate row and every surviving key points at bytes some row of the corpus did fetch. */
  lemma NothingIsSkippedForNothing(s: State, steps: seq<Step>)
    requires Reachable(s, steps)
    ensures var r := Run(s, steps);
      (forall k :: k in r.artifacts && r.artifacts[k].status.Duplicate? ==>
        r.artifacts[k].sha.Some? && Witness(r, r.artifacts[k].corpus, r.artifacts[k].sha.value)) &&
      (forall c, d :: (c, d) in r.docKeys ==> Witness(r, c, d))
  {
    ReachableInv(s, steps);
    var r := Run(s, steps);
    forall k | k in r.artifacts && r.artifacts[k].status.Duplicate? ensures r.artifacts[k].sha.Some? {
      assert RowOk(r, k);
    }
  }

  // ---- stored bytes

  /** No two digests ever served share their first eight characters. */
  ghost predicate NoCollision(seen: set<string>) {
    forall a, b :: a in seen && b in seen && IsDigest(a) && IsDigest(b) && a[..8] == b[..8] ==> a == b
  }

  /** A fetched row's object always holds bytes of the row's eight-character prefix. */
  lemma FetchedObjectHasPrefix(s: State, steps: seq<Step>, k: nat)
    requires Reachable(s, steps) && k in Run(s, steps).artifacts && Run(s, steps).artifacts[k].status.Fetched?
    ensures var r := Run(s, steps); var a := r.artifacts[k];
      a.sha.Some? && a.path.Some? && a.path.value in r.objects && a.sha.value in r.seen &&
      r.objects[a.path.value] in r.seen && IsDigest(a.sha.value) && IsDigest(r.objects[a.path.value]) &&
      r.objects[a.path.value][..8] == a.sha.value[..8]
  {
    ReachableInv(s, steps);
    var r := Run(s, steps);
    assert RowOk(r, k);
    SamePathSamePrefix(r.artifacts[k].path.value, r.artifacts[k].sha.value, r.objects[r.artifacts[k].path.value]);
  }

  lemma SamePathSamePrefix(path: string, a: string, b: string)
    requires PathOf(path, a) && PathOf(path, b)
    ensures a[..8] == b[..8]
  {
    var o, j, f :| Free(f, '/') && path == ObjectKey(o, j, a, f);
    var o', j', f' :| Free(f', '/') && path == ObjectKey(o', j', b, f');
    SameKeySamePrefix(o, j, a, f, o', j', b, f');
  }

  /** A fetched row's path holds its bytes, unless two served digests collide in their prefix. */
  lemma FetchedObjectHoldsItsBytes(s: State, steps: seq<Step>, k: nat)
    requires Reachable(s, steps) && k in Run(s, steps).artifacts && Run(s, steps).artifacts[k].status.Fetched?
    requires NoCollision(Run(s, steps).seen)
    ensures var r := Run(s, steps); var a := r.artifacts[k];
      a.sha.Some? && a.path.Some? && a.path.value in r.objects && r.objects[a.path.value] == a.sha.value
  {
    FetchedObjectHasPrefix(s, steps, k);
  }

  // ---- transitions

  /** One step changes a row only along the state machine, by one attempt, or in its stamp. */
  ghost predicate MovesTo(a: Artifact, b: Artifact) {
    SameRow(a, b) ||
    (a.status.Pending? && b.status.Pending? && b.attempts == a.attempts + 1 && b.dispatchId.None? && b.sha == a.sha) ||
    (Allowed(a.status, b.status) && a.id == b.id && a.corpus == b.corpus && a.url == b.url)
  }

  lemma RowsMoveAsAllowed(s: State, step: Step, k: nat)
    requires Inv(s) && Enabled(s, step) && k in s.artifacts
    ensures k in Apply(s, step).artifacts ==> MovesTo(s.artifacts[k], Apply(s, step).artifacts[k])
    ensures k !in Apply(s, step).artifacts ==> s.artifacts[k].status.Pending?
  {
    assert RowOk(s, k);
    if step.Insert? {
      assert k != s.nextId;
    } else if step.DeadLink? || step.Attempt? || step.NotADocument? || step.MarkDuplicate? || step.Commit? {
      assert WorkerOk(s, s.workers[step.w]) && RowOk(s, s.workers[step.w].row.id);
      WorkerWritesItsRow(s, step);
    }
  }

  /** A worker's write or delete changes only the row it holds, which is pending until then. */
  lemma WorkerWritesItsRow(s: State, step: Step)
    requires Enabled(s, step)
    requires step.DeadLink? || step.Attempt? || step.NotADocument? || step.MarkDuplicate? || step.Commit?
    requires WorkerOk(s, s.workers[step.w]) && RowOk(s, s.workers[step.w].row.id)
    ensures var id := s.workers[step.w].row.id; var s' := Apply(s, step);
      id in s.artifacts && s.artifacts[id].status.Pending? &&
      (forall j :: j in s.artifacts && j != id ==> j in s'.artifacts && s'.artifacts[j] == s.artifacts[j]) &&
      (id in s'.artifacts ==> MovesTo(s.artifacts[id], s'.artifacts[id]))
  {
  }

  /** Once out of pending, a row keeps everything but its stamp for the rest of the run. */
  lemma {:induction false} TerminalRowsStay(s: State, steps: seq<Step>, k: nat)
    requires Inv(s) && ValidRun(s, steps) && NoOverlap(s, steps)
    requires k in s.artifacts && !s.artifacts[k].status.Pending?
    ensures k in Run(s, steps).artifacts && SameRow(s.artifacts[k], Run(s, steps).artifacts[k])
    decreases |steps|
  {
    if steps != [] {
      var t := Apply(s, steps[0]);
      assert RowOk(s, k);
      RowsMoveAsAllowed(s, steps[0], k);
      StepKeepsInv(s, steps[0]);
      TerminalRowsStay(t, steps[1..], k);
    }
  }

  // ---- what the two assumptions are for

  lemma {:induction false} Extend(s: State, steps: seq<Step>, step: Step)
    requires ValidRun(s, steps) && Enabled(Run(s, steps), step)
    ensures ValidRun(s, steps + [step]) && Run(s, steps + [step]) == Apply(Run(s, steps), step)
    ensures NoOverlap(s, steps) && Alone(Run(s, steps), step) ==> NoOverlap(s, steps + [step])
    decreases |steps|
  {
    if steps == [] {
      assert [step][1..] == [];
    } else {
      Extend(Apply(s, steps[0]), steps[1..], step);
      assert (steps + [step])[1..] == steps[1..] + [step];
    }
  }

  lemma Then(steps: seq<Step>, step: Step) returns (more: seq<Step>, s: State)
    requires ValidRun(EMPTY, steps) && Enabled(Run(EMPTY, steps), step)
    ensures ValidRun(EMPTY, more) && s == Run(EMPTY, more) == Apply(Run(EMPTY, steps), step)
    ensures NoOverlap(EMPTY, steps) && Alone(Run(EMPTY, steps), step) ==> NoOverlap(EMPTY, more)
  {
    Extend(EMPTY, steps, step);
    more := steps + [step];
    s := Run(EMPTY, more);
  }

  const EMPTY := State(map[], {}, map[], map[], 0, {})
  const FIRST := Artifact(0, "c", "u", Pending, 0, None, None, Some(0), Some(0))
  const SECOND := Artifact(1, "c", "v", Pending, 0, None, None, Some(0), Some(1))

  function Holding(row: Artifact, sha: string, path: string): Artifact {
    row.(status := Fetched, sha := Some(sha), path := Some(path))
  }

  lemma Listed() returns (steps: seq<Step>)
    ensures ValidRun(EMPTY, steps) && NoOverlap(EMPTY, steps)
    ensures Run(EMPTY, steps) == EMPTY.(nextId := 2,
      artifacts := map[0 := FIRST.(dispatchedAt := None, dispatchId := None),
        1 := SECOND.(dispatchedAt := None, dispatchId := None)])
  {
    var s: State;
    steps, s := Then([], Insert("c", "u"));
    steps, s := Then(steps, Insert("c", "v"));
  }

  lemma BothListed() returns (steps: seq<Step>)
    ensures ValidRun(EMPTY, steps) && NoOverlap(EMPTY, steps)
    ensures Run(EMPTY, steps) == EMPTY.(artifacts := map[0 := FIRST, 1 := SECOND], nextId := 2)
  {
    var s: State;
    steps := Listed();
    steps, s := Then(steps, Stamp(0, 0, 0));
    steps, s := Then(steps, Stamp(1, 0, 1));
  }

  /** A handler starts on a stamped row whose bytes the corpus does not hold yet: it misses key and table. */
  lemma Missed(before: seq<Step>, w: nat, row: Artifact, d: string, p: string) returns (steps: seq<Step>)
    requires ValidRun(EMPTY, before) && IsDigest(d) && p == ObjectKey(row.corpus, "j", d, "f")
    requires var s := Run(EMPTY, before);
      w !in s.workers && row.id in s.artifacts && s.artifacts[row.id] == row && row.status.Pending? &&
        row.dispatchId.Some? &&
      (row.corpus, d) !in s.docKeys && !HasSha(s.artifacts, row.corpus, d, row.id)
    ensures ValidRun(EMPTY, steps)
    ensures NoOverlap(EMPTY, before) && Run(EMPTY, before).workers == map[] ==> NoOverlap(EMPTY, steps)
    ensures var s := Run(EMPTY, before);
      Run(EMPTY, steps) == s.(workers := s.workers[w := Storing(row, d, p)], seen := s.seen + {d})
  {
    var s: State;
    var s0 := Run(EMPTY, before);
    steps, s := Then(before, Gate(w, row.id, row.dispatchId.value));
    steps, s := Then(steps, Served(w, d, "j", "f"));
    assert s == s0.(workers := s0.workers[w := KeyMissed(row, d, p)], seen := s0.seen + {d});
    steps, s := Then(steps, CheckTable(w));
  }

  /** Having missed both, it stores the bytes, commits the row and sets the key. */
  lemma Kept(before: seq<Step>, w: nat, row: Artifact, d: string, p: string) returns (steps: seq<Step>)
    requires ValidRun(EMPTY, before)
    requires var s := Run(EMPTY, before); w in s.workers && s.workers[w] == Storing(row, d, p) && row.id in s.artifacts
    ensures ValidRun(EMPTY, steps) && (NoOverlap(EMPTY, before) ==> NoOverlap(EMPTY, steps))
    ensures var s, s' := Run(EMPTY, before), Run(EMPTY, steps);
      s'.workers == s.workers - {w} && s'.artifacts == s.artifacts[row.id := Holding(row, d, p)] &&
      s'.objects == s.objects[p := d] && s'.docKeys == s.docKeys + {(row.corpus, d)}
  {
    var s: State;
    var s0 := Run(EMPTY, before);
    steps, s := Then(before, Put(w));
    assert s == s0.(objects := s0.objects[p := d], workers := s0.workers[w := Stored(row, d, p)]);
    steps, s := Then(steps, Commit(w));
    assert s.workers == s0.workers[w := Committed(row, d)];
    steps, s := Then(steps, SetKey(w));
  }

  lemma BothMissed(d: string, p: string) returns (steps: seq<Step>)
    requires IsDigest(d) && p == ObjectKey("c", "j", d, "f")
    ensures ValidRun(EMPTY, steps)
    ensures var s := Run(EMPTY, steps);
      s.artifacts == map[0 := FIRST, 1 := SECOND] &&
        s.workers == map[0 := Storing(FIRST, d, p), 1 := Storing(SECOND, d, p)]
  {
    steps := BothListed();
    steps := Missed(steps, 0, FIRST, d, p);
    steps := Missed(steps, 1, SECOND, d, p);
  }

  lemma TwoHolders(s: State, d: string, p: string)
    requires s.artifacts == map[0 := Holding(FIRST, d, p), 1 := Holding(SECOND, d, p)]
    ensures !UniqueFetched(s)
  {
    assert s.artifacts[0].sha == s.artifacts[1].sha;
  }

  /** Two handlers of one corpus at once, serving the same bytes, fetch them twice. */
  lemma OverlapFetchesTwice(d: string) returns (steps: seq<Step>)
    requires IsDigest(d)
    ensures Init(EMPTY) && ValidRun(EMPTY, steps) && !UniqueFetched(Run(EMPTY, steps))
  {
    var p := ObjectKey("c", "j", d, "f");
    steps := BothMissed(d, p);
    steps := Kept(steps, 0, FIRST, d, p);
    steps := Kept(steps, 1, SECOND, d, p);
    TwoHolders(Run(EMPTY, steps), d, p);
  }

  /** Digests with one prefix share an object key: the first row's path ends up with the second's bytes. */
  lemma CollidingDigestsShareAnObject(d: string, e: string) returns (steps: seq<Step>)
    requires IsDigest(d) && IsDigest(e) && d != e && d[..8] == e[..8]
    ensures Init(EMPTY) && ValidRun(EMPTY, steps) && NoOverlap(EMPTY, steps)
    ensures var r := Run(EMPTY, steps);
      0 in r.artifacts && r.artifacts[0].status.Fetched? && r.artifacts[0].sha == Some(d) &&
        r.artifacts[0].path.Some? &&
      r.artifacts[0].path.value in r.objects && r.objects[r.artifacts[0].path.value] == e
  {
    var p := ObjectKey("c", "j", d, "f");
    assert p == ObjectKey("c", "j", e, "f");
    steps := BothListed();
    steps := Missed(steps, 0, FIRST, d, p);
    steps := Kept(steps, 0, FIRST, d, p);
    assert Run(EMPTY, steps).artifacts == map[0 := Holding(FIRST, d, p), 1 := SECOND];
    steps := Missed(steps, 0, SECOND, e, p);
    steps := Kept(steps, 0, SECOND, e, p);
  }
}
