/** The fetch worker: one URL task becomes a stored document, a duplicate, a failed attempt or nothing. */
module Fetching {
  import opened Options
  import opened StorageKeys
  import opened Staging
  import opened ArtifactStore
  import F = FetchProtocol

  /** What the web answered: unreachable host, transport error, dead status, other status, bytes of no known type, or a
      document. */
  datatype Response =
    | Unreachable
    | Broken
    | Status(code: int)
    | Unknown
    | Document(sha: string, jurisdiction: string, filename: string)

  predicate IsDead(code: int) { code == 400 || code == 401 || code == 403 || code == 404 || code == 410 }

  /** The artifact the gate lets through: running corpus, pending row, and this very dispatch. */
  function Gated(artifacts: map<nat, Artifact>, running: bool, task: FetchTask): Option<Artifact> {
    if running && task.artifact in artifacts && artifacts[task.artifact].status.Pending? &&
      artifacts[task.artifact].dispatchId == Some(task.dispatchId)
    then Some(artifacts[task.artifact]) else None
  }

  /** Of all tasks for an artifact, the gate passes only those of one dispatch at a time. */
  lemma OneDispatchPasses(artifacts: map<nat, Artifact>, running: bool, a: FetchTask, b: FetchTask)
    requires a.artifact == b.artifact && Gated(artifacts, running, a).Some?
    ensures Gated(artifacts, running, b).Some? <==> b.dispatchId == a.dispatchId
  {
  }

  /** A task the gate turned away for its row never passes later, unless the row is stamped with its dispatch again. */
  lemma {:induction false} SupersededStaysOut(s: F.State, steps: seq<F.Step>, running: bool, task: FetchTask)
    requires F.ValidRun(s, steps) && Gated(s.artifacts, true, task).None?
    requires forall i :: 0 <= i < |steps| ==> !Stamps(steps[i], task)
    ensures Gated(F.Run(s, steps).artifacts, running, task).None?
    decreases |steps|
  {
    if steps != [] {
      assert !Stamps(steps[0], task);
      SupersededStaysOut(F.Apply(s, steps[0]), steps[1..], running, task);
    }
  }

  predicate Stamps(step: F.Step, task: FetchTask) {
    step.Stamp? && step.id == task.artifact && step.dispatchId == task.dispatchId
  }

  /** One row was rewritten, or removed, and nothing else changed but the keys and objects given. */
  ghost predicate Wrote(s: F.State, s': F.State, artifacts: map<nat, Artifact>, docKeys: set<(string, string)>,
                        objects: map<string, string>) {
    s' == s.(artifacts := artifacts, docKeys := docKeys, objects := objects, seen := s'.seen)
  }

  /** What handling a task for `row` does, by the answer of the web. */
  ghost predicate Handled(s: F.State, s': F.State, row: Artifact, response: Response) {
    match response
    case Unreachable => Wrote(s, s', s.artifacts - {row.id}, s.docKeys, s.objects)
    case Broken => Wrote(s, s', F.Update(s.artifacts, F.Attempted(row)), s.docKeys, s.objects)
    case Status(code) =>
      if IsDead(code) then Wrote(s, s', s.artifacts - {row.id}, s.docKeys, s.objects)
      else Wrote(s, s', F.Update(s.artifacts, F.Attempted(row)), s.docKeys, s.objects)
    case Unknown => Wrote(s, s', F.Update(s.artifacts, row.(status := F.NotDocument)), s.docKeys, s.objects)
    case Document(sha, jurisdiction, filename) =>
      IsDigest(sha) &&
      var path := ObjectKey(row.corpus, jurisdiction, sha, filename);
      if (row.corpus, sha) in s.docKeys || F.HasSha(s.artifacts, row.corpus, sha, row.id)
      then Wrote(s, s', F.Update(s.artifacts, row.(status := F.Duplicate, sha := Some(sha))),
        s.docKeys + {(row.corpus, sha)}, s.objects)
      else Wrote(s, s', F.Update(s.artifacts, row.(status := F.Fetched, sha := Some(sha), path := Some(path))),
                 s.docKeys + {(row.corpus, sha)}, s.objects[path := sha])
  }

  /** The row's next state after an answer that is not a document. */
  method RecordAttempt(st: Store, row: Artifact)
    requires st.Valid() && st.workers == map[0 := F.Fetching(row)]
    modifies st`artifacts, st`workers
    ensures st.Valid() && st.workers == map[] && st.artifacts == F.Update(old(st.artifacts), F.Attempted(row))
  {
    ghost var before := st.FetchView();
    var next := row.(attempts := row.attempts + 1);
    if next.attempts >= F.ATTEMPT_LIMIT {
      next := next.(status := F.Failed);
    } else {
      next := next.(dispatchedAt := None, dispatchId := None);
    }
    st.UpdateArtifact(next);
    st.workers := map[];
    assert st.FetchView() == F.Apply(before, F.Attempt(0));
  }

  /** A dead link leaves no row behind. */
  method DeleteArtifact(st: Store, row: Artifact)
    requires st.Valid() && st.workers == map[0 := F.Fetching(row)]
    modifies st`artifacts, st`workers
    ensures st.Valid() && st.workers == map[] && st.artifacts == old(st.artifacts) - {row.id}
  {
    ghost var before := st.FetchView();
    st.artifacts := st.artifacts - {row.id};
    st.workers := map[];
    assert st.FetchView() == F.Apply(before, F.DeadLink(0));
  }

  method MarkNotDocument(st: Store, row: Artifact)
    requires st.Valid() && st.workers == map[0 := F.Fetching(row)]
    modifies st`artifacts, st`workers
    ensures st.Valid() && st.workers == map[] && st.artifacts ==
      F.Update(old(st.artifacts), row.(status := F.NotDocument))
  {
    ghost var before := st.FetchView();
    st.UpdateArtifact(row.(status := F.NotDocument));
    st.workers := map[];
    assert st.FetchView() == F.Apply(before, F.NotADocument(0));
  }

  /** The key answers fast, the table answers right, and heals the key. */
  method FindDuplicate(st: Store, row: Artifact, sha: string, jurisdiction: string, filename: string)
      returns (duplicate: bool)
    requires st.Valid() && st.workers == map[0 := F.Fetching(row)] && IsDigest(sha) && Free(filename, '/')
    modifies st`docKeys, st`workers, st`seen
    ensures st.Valid() && duplicate == ((row.corpus, sha) in old(st.docKeys) || F.HasSha(st.artifacts, row.corpus, sha,
      row.id))
    ensures st.docKeys == if duplicate then old(st.docKeys) + {(row.corpus, sha)} else old(st.docKeys)
    ensures st.workers == map[0 := if duplicate then F.Marking(row, sha)
                                   else F.Storing(row, sha, ObjectKey(row.corpus, jurisdiction, sha, filename))]
  {
    ghost var path := ObjectKey(row.corpus, jurisdiction, sha, filename);
    ghost var before := st.FetchView();
    duplicate := (row.corpus, sha) in st.docKeys;
    st.seen := st.seen + {sha};
    st.workers := map[0 := if duplicate then F.Marking(row, sha) else F.KeyMissed(row, sha, path)];
    assert st.FetchView() == F.Apply(before, F.Served(0, sha, jurisdiction, filename));
    if !duplicate { duplicate := AskTable(st, row, sha, path); }
  }

  method AskTable(st: Store, row: Artifact, sha: string, ghost path: string) returns (duplicate: bool)
    requires st.Valid() && st.workers == map[0 := F.KeyMissed(row, sha, path)]
    modifies st`docKeys, st`workers
    ensures st.Valid() && duplicate == F.HasSha(st.artifacts, row.corpus, sha, row.id)
    ensures st.docKeys == if duplicate then old(st.docKeys) + {(row.corpus, sha)} else old(st.docKeys)
    ensures st.workers == map[0 := if duplicate then F.Marking(row, sha) else F.Storing(row, sha, path)]
  {
    ghost var before := st.FetchView();
    duplicate := st.CorpusHasSha256(row.corpus, sha, row.id);
    st.workers := map[0 := if duplicate then F.Healing(row, sha) else F.Storing(row, sha, path)];
    assert st.FetchView() == F.Apply(before, F.CheckTable(0));
    if duplicate { HealKey(st, row, sha); }
  }

  method HealKey(st: Store, row: Artifact, sha: string)
    requires st.Valid() && st.workers == map[0 := F.Healing(row, sha)]
    modifies st`docKeys, st`workers
    ensures st.Valid() && st.docKeys == old(st.docKeys) + {(row.corpus, sha)} &&
      st.workers == map[0 := F.Marking(row, sha)]
  {
    ghost var before := st.FetchView();
    st.docKeys := st.docKeys + {(row.corpus, sha)};
    st.workers := map[0 := F.Marking(row, sha)];
    assert st.FetchView() == F.Apply(before, F.Heal(0));
  }

  method MarkDuplicate(st: Store, row: Artifact, sha: string)
    requires st.Valid() && st.workers == map[0 := F.Marking(row, sha)]
    modifies st`artifacts, st`workers
    ensures st.Valid() && st.workers == map[]
    ensures st.artifacts == F.Update(old(st.artifacts), row.(status := F.Duplicate, sha := Some(sha)))
  {
    ghost var before := st.FetchView();
    st.UpdateArtifact(row.(status := F.Duplicate, sha := Some(sha)));
    st.workers := map[];
    assert st.FetchView() == F.Apply(before, F.MarkDuplicate(0));
  }

  /** Bytes first, then the row, then the key. */
  method StoreDocument(st: Store, row: Artifact, sha: string, path: string)
    requires st.Valid() && st.workers == map[0 := F.Storing(row, sha, path)]
    modifies st`artifacts, st`objects, st`docKeys, st`workers
    ensures st.Valid() && st.workers == map[] && st.objects == old(st.objects)[path := sha]
    ensures st.docKeys == old(st.docKeys) + {(row.corpus, sha)}
    ensures st.artifacts == F.Update(old(st.artifacts), row.(status := F.Fetched, sha := Some(sha), path := Some(path)))
  {
    ghost var before := st.FetchView();
    st.objects := st.objects[path := sha];
    st.workers := map[0 := F.Stored(row, sha, path)];
    assert st.FetchView() == F.Apply(before, F.Put(0));
    before := st.FetchView();
    st.UpdateArtifact(row.(status := F.Fetched, sha := Some(sha), path := Some(path)));
    st.workers := map[0 := F.Committed(row, sha)];
    assert st.FetchView() == F.Apply(before, F.Commit(0));
    before := st.FetchView();
    st.docKeys := st.docKeys + {(row.corpus, sha)};
    st.workers := map[];
    assert st.FetchView() == F.Apply(before, F.SetKey(0));
  }

  /** The gate reads the row; the ghost worker starts on it. */
  method GateFetch(st: Store, running: bool, task: FetchTask) returns (row: Option<Artifact>)
    requires st.Valid() && st.workers == map[]
    modifies st`workers
    ensures st.Valid() && row == Gated(st.artifacts, running, task)
    ensures st.workers == if row.Some? then map[0 := F.Fetching(row.value)] else map[]
  {
    row := None;
    if running && task.artifact in st.artifacts && st.artifacts[task.artifact].status.Pending? &&
      st.artifacts[task.artifact].dispatchId == Some(task.dispatchId)
    {
      ghost var before := st.FetchView();
      row := Some(st.artifacts[task.artifact]);
      st.workers := map[0 := F.Fetching(row.value)];
      assert st.FetchView() == F.Apply(before, F.Gate(0, task.artifact, task.dispatchId));
    }
  }

  // ---- the same in rows, keys and objects

  /** Row `k` is gone (`next` absent) or became `next`, and no other row changed. */
  ghost predicate Became(s: F.State, s': F.State, k: nat, next: Option<Artifact>) {
    s'.artifacts == if next.Some? then s.artifacts[k := next.value] else s.artifacts - {k}
  }

  /** The third failed attempt fails the row; an earlier one is counted and gives up the stamp. */
  ghost predicate TriedAgain(s: F.State, s': F.State, row: Artifact) {
    var next := row.(attempts := row.attempts + 1);
    Became(s, s', row.id, Some(if row.attempts >= 2 then next.(status := F.Failed)
      else next.(dispatchedAt := None, dispatchId := None)))
  }

  /** Another row of the corpus has the bytes, or their key is set. */
  ghost predicate KnownBytes(s: F.State, row: Artifact, sha: string) {
    (row.corpus, sha) in s.docKeys ||
    exists k :: k in s.artifacts && k != row.id && s.artifacts[k].corpus == row.corpus &&
      s.artifacts[k].sha == Some(sha)
  }

  /** A task whose corpus is stopped, whose row is not pending, or whose dispatch was superseded changes nothing. A host
      that does not resolve and the statuses 400, 401, 403, 404 and 410 remove the row; any other failure is a counted
      attempt; bytes of no known type end the row; known bytes make it a duplicate; new ones are stored. */
  ghost predicate Fetched(s: F.State, s': F.State, running: bool, task: FetchTask, response: Response) {
    if !(running && task.artifact in s.artifacts && s.artifacts[task.artifact].status == F.Pending &&
      s.artifacts[task.artifact].dispatchId == Some(task.dispatchId))
    then s' == s
    else
      var row := s.artifacts[task.artifact];
      (!response.Document? ==> s'.docKeys == s.docKeys && s'.objects == s.objects) &&
      match response
      case Unreachable => Became(s, s', row.id, None)
      case Broken => TriedAgain(s, s', row)
      case Status(code) =>
        if code in {400, 401, 403, 404, 410} then Became(s, s', row.id, None) else TriedAgain(s, s', row)
      case Unknown => Became(s, s', row.id, Some(row.(status := F.NotDocument)))
      case Document(sha, jurisdiction, filename) =>
        IsDigest(sha) && s'.docKeys == s.docKeys + {(row.corpus, sha)} &&
        var path := Slug(row.corpus) + "/" + Slug(jurisdiction) + "/" + sha[..8] + "_" + filename;
        if KnownBytes(s, row, sha)
        then s'.objects == s.objects && Became(s, s', row.id, Some(row.(status := F.Duplicate, sha := Some(sha))))
        else
          s'.objects == s.objects[path := sha] &&
          Became(s, s', row.id, Some(row.(status := F.Fetched, sha := Some(sha), path := Some(path))))
  }

  lemma HandledIsFetched(s: F.State, s': F.State, running: bool, task: FetchTask, response: Response)
    requires var row := Gated(s.artifacts, running, task);
      if row.None? then s' == s else Handled(s, s', row.value, response)
    requires task.artifact in s.artifacts ==> s.artifacts[task.artifact].id == task.artifact
    ensures Fetched(s, s', running, task, response)
  {
  }

  /** One message, handled to its end; the message is deleted in every case. Rows stand under their own ids. */
  method HandleOne(st: Store, running: bool, task: FetchTask, response: Response)
    requires st.Valid() && st.workers == map[]
    requires response.Document? ==> IsDigest(response.sha) && Free(response.filename, '/')
    modifies st`artifacts, st`objects, st`docKeys, st`workers, st`seen
    ensures st.Valid() && st.workers == map[]
    ensures var row := Gated(old(st.artifacts), running, task);
      if row.None? then st.FetchView() == old(st.FetchView())
        else Handled(old(st.FetchView()), st.FetchView(), row.value, response)
    ensures task.artifact in old(st.artifacts) && old(st.artifacts)[task.artifact].id == task.artifact ==>
      Fetched(old(st.FetchView()), st.FetchView(), running, task, response)
  {
    Work(st, running, task, response);
    if task.artifact in old(st.artifacts) && old(st.artifacts)[task.artifact].id == task.artifact {
      HandledIsFetched(old(st.FetchView()), st.FetchView(), running, task, response);
    }
  }

  method Work(st: Store, running: bool, task: FetchTask, response: Response)
    requires st.Valid() && st.workers == map[]
    requires response.Document? ==> IsDigest(response.sha) && Free(response.filename, '/')
    modifies st`artifacts, st`objects, st`docKeys, st`workers, st`seen
    ensures st.Valid() && st.workers == map[]
    ensures var row := Gated(old(st.artifacts), running, task);
      if row.None? then st.FetchView() == old(st.FetchView())
        else Handled(old(st.FetchView()), st.FetchView(), row.value, response)
  {
    var gated := GateFetch(st, running, task);
    if gated.None? { return; }
    var row := gated.value;
    match response
    case Unreachable => DeleteArtifact(st, row);
    case Broken => RecordAttempt(st, row);
    case Status(code) => if IsDead(code) { DeleteArtifact(st, row); } else { RecordAttempt(st, row); }
    case Unknown => MarkNotDocument(st, row);
    case Document(sha, jurisdiction, filename) =>
      var duplicate := FindDuplicate(st, row, sha, jurisdiction, filename);
      if duplicate {
        MarkDuplicate(st, row, sha);
      } else {
        StoreDocument(st, row, sha, ObjectKey(row.corpus, jurisdiction, sha, filename));
      }
  }
}
