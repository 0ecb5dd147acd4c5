/** Fetching artifacts: workers, reconciliation and key loss as one interleaved step system.

    Bytes are represented by their sha256 digest. A worker handles one message at a time and may crash
    between any two of its effects; any doc key may be lost at any step; any pending artifact may be
    stamped again at any step by staging or reconciliation. */
module FetchProtocol {
  import opened Options
  import opened StorageKeys

  const ATTEMPT_LIMIT := 3

  datatype Status = Pending | Fetched | Failed | NotDocument | Duplicate | Cataloged | Rejected

  /** The artifact state machine of this phase. */
  predicate Allowed(from: Status, to: Status) {
    (from.Pending? && (to.Fetched? || to.Failed? || to.NotDocument? || to.Duplicate?)) ||
    (from.Fetched? && (to.Cataloged? || to.Rejected?))
  }

  datatype Artifact = Artifact(
    id: nat, corpus: string, url: string, status: Status, attempts: nat, sha: Option<string>, path: Option<string>,
    dispatchedAt: Option<int>, dispatchId: Option<nat>)

  datatype Worker =
    | Fetching(row: Artifact)
    | KeyMissed(row: Artifact, sha: string, path: string)
    | Healing(row: Artifact, sha: string)
    | Marking(row: Artifact, sha: string)
    | Storing(row: Artifact, sha: string, path: string)
    | Stored(row: Artifact, sha: string, path: string)
    | Committed(row: Artifact, sha: string)

  /** `docKeys` is the cache of fetched digests; `seen` remembers every digest ever served. */
  datatype State = State(
    artifacts: map<nat, Artifact>, docKeys: set<(string, string)>, objects: map<string, string>,
    workers: map<nat, Worker>, nextId: nat, seen: set<string>)

  datatype Step =
    | Insert(corpus: string, url: string)
    | Stamp(id: nat, at: int, dispatchId: nat)
    | LoseKeys(keys: set<(string, string)>)
    | Crash(w: nat)
    | Gate(w: nat, id: nat, dispatchId: nat)
    | DeadLink(w: nat)
    | Attempt(w: nat)
    | NotADocument(w: nat)
    | Served(w: nat, sha: string, jurisdiction: string, filename: string)
    | CheckTable(w: nat)
    | Heal(w: nat)
    | MarkDuplicate(w: nat)
    | Put(w: nat)
    | Commit(w: nat)
    | SetKey(w: nat)

  predicate AtFetching(s: State, w: nat) { w in s.workers && s.workers[w].Fetching? }

  /** The table's answer to "does another row of the corpus hold these bytes". */
  predicate HasSha(artifacts: map<nat, Artifact>, corpus: string, sha: string, except: nat) {
    exists k :: k in artifacts && k != except && artifacts[k].corpus == corpus && artifacts[k].sha == Some(sha)
  }

  predicate HasUrl(artifacts: map<nat, Artifact>, corpus: string, url: string) {
    exists k :: k in artifacts && artifacts[k].corpus == corpus && artifacts[k].url == url
  }

  ghost predicate Enabled(s: State, step: Step) {
    match step
    case Insert(corpus, url) => !HasUrl(s.artifacts, corpus, url)
    case Stamp(_, _, _) => true
    case LoseKeys(_) => true
    case Crash(_) => true
    case Gate(w, id, d) =>
      w !in s.workers && id in s.artifacts && s.artifacts[id].status.Pending? && s.artifacts[id].dispatchId == Some(d)
    case DeadLink(w) => AtFetching(s, w)
    case Attempt(w) => AtFetching(s, w)
    case NotADocument(w) => AtFetching(s, w)
    case Served(w, sha, _, filename) => AtFetching(s, w) && IsDigest(sha) && Free(filename, '/')
    case CheckTable(w) => w in s.workers && s.workers[w].KeyMissed?
    case Heal(w) => w in s.workers && s.workers[w].Healing?
    case MarkDuplicate(w) => w in s.workers && s.workers[w].Marking?
    case Put(w) => w in s.workers && s.workers[w].Storing?
    case Commit(w) => w in s.workers && s.workers[w].Stored?
    case SetKey(w) => w in s.workers && s.workers[w].Committed?
  }

  /** The table's update overwrites the row if it still exists, with whatever the worker holds. */
  function Update(artifacts: map<nat, Artifact>, row: Artifact): map<nat, Artifact> {
    if row.id in artifacts then artifacts[row.id := row] else artifacts
  }

  /** A failed attempt: out of attempts, or back to pending without a stamp. */
  function Attempted(row: Artifact): Artifact {
    if row.attempts + 1 >= ATTEMPT_LIMIT then row.(attempts := row.attempts + 1, status := Failed)
    else row.(attempts := row.attempts + 1, dispatchedAt := None, dispatchId := None)
  }

  function Done(s: State, w: nat, artifacts: map<nat, Artifact>): State {
    s.(artifacts := artifacts, workers := s.workers - {w})
  }

  function AfterServed(s: State, w: nat, sha: string, path: string): Worker
    requires AtFetching(s, w)
  {
    var row := s.workers[w].row;
    if (row.corpus, sha) in s.docKeys then Marking(row, sha) else KeyMissed(row, sha, path)
  }

  function AfterTable(s: State, pc: Worker): Worker
    requires pc.KeyMissed?
  {
    if HasSha(s.artifacts, pc.row.corpus, pc.sha, pc.row.id) then Healing(pc.row, pc.sha)
    else Storing(pc.row, pc.sha, pc.path)
  }

  function Apply(s: State, step: Step): State
    requires Enabled(s, step)
  {
    match step
    case Insert(corpus, url) =>
      s.(artifacts := s.artifacts[s.nextId := Artifact(s.nextId, corpus, url, Pending, 0, None, None, None, None)],
         nextId := s.nextId + 1)
    case Stamp(id, at, d) =>
      if id in s.artifacts
      then s.(artifacts := s.artifacts[id := s.artifacts[id].(dispatchedAt := Some(at), dispatchId := Some(d))])
      else s
    case LoseKeys(keys) => s.(docKeys := s.docKeys - keys)
    case Crash(w) => s.(workers := s.workers - {w})
    case Gate(w, id, _) => s.(workers := s.workers[w := Fetching(s.artifacts[id])])
    case DeadLink(w) => Done(s, w, s.artifacts - {s.workers[w].row.id})
    case Attempt(w) => Done(s, w, Update(s.artifacts, Attempted(s.workers[w].row)))
    case NotADocument(w) => Done(s, w, Update(s.artifacts, s.workers[w].row.(status := NotDocument)))
    case Served(w, sha, jurisdiction, filename) =>
      s.(workers := s.workers[w := AfterServed(s, w, sha,
        ObjectKey(s.workers[w].row.corpus, jurisdiction, sha, filename))],
         seen := s.seen + {sha})
    case CheckTable(w) => s.(workers := s.workers[w := AfterTable(s, s.workers[w])])
    case Heal(w) =>
      s.(docKeys := s.docKeys + {(s.workers[w].row.corpus, s.workers[w].sha)},
         workers := s.workers[w := Marking(s.workers[w].row, s.workers[w].sha)])
    case MarkDuplicate(w) =>
      Done(s, w, Update(s.artifacts, s.workers[w].row.(status := Duplicate, sha := Some(s.workers[w].sha))))
    case Put(w) =>
      s.(objects := s.objects[s.workers[w].path := s.workers[w].sha],
         workers := s.workers[w := Stored(s.workers[w].row, s.workers[w].sha, s.workers[w].path)])
    case Commit(w) =>
      var pc := s.workers[w];
      s.(artifacts := Update(s.artifacts, pc.row.(status := Fetched, sha := Some(pc.sha), path := Some(pc.path))),
         workers := s.workers[w := Committed(pc.row, pc.sha)])
    case SetKey(w) =>
      s.(docKeys := s.docKeys + {(s.workers[w].row.corpus, s.workers[w].sha)}, workers := s.workers - {w})
  }

  /** No other handler of the same corpus is at work when this one starts. */
  ghost predicate Alone(s: State, step: Step) {
    step.Gate? && step.id in s.artifacts ==>
      forall w :: w in s.workers ==> s.workers[w].row.corpus != s.artifacts[step.id].corpus
  }

  ghost predicate Init(s: State) {
    s.artifacts == map[] && s.docKeys == {} && s.objects == map[] && s.workers == map[] && s.seen == {}
  }

  ghost predicate ValidRun(s: State, steps: seq<Step>)
    decreases |steps|
  {
    steps == [] || (Enabled(s, steps[0]) && ValidRun(Apply(s, steps[0]), steps[1..]))
  }

  ghost function Run(s: State, steps: seq<Step>): State
    requires ValidRun(s, steps)
    decreases |steps|
  {
    if steps == [] then s else Run(Apply(s, steps[0]), steps[1..])
  }

  /** Handlers of one corpus never overlap; crashes, losses and re-stamping are unrestricted. */
  ghost predicate NoOverlap(s: State, steps: seq<Step>)
    requires ValidRun(s, steps)
    decreases |steps|
  {
    steps == [] || (Alone(s, steps[0]) && NoOverlap(Apply(s, steps[0]), steps[1..]))
  }
}
