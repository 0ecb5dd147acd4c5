/** The artifact table's invariants under crashes, key loss and re-dispatch. */
module FetchSafety {
  import opened Options
  import opened StorageKeys
  import opened FetchProtocol

  /** Equal but for the dispatch stamp. */
  predicate SameRow(a: Artifact, b: Artifact) {
    a.(dispatchedAt := None, dispatchId := None) == b.(dispatchedAt := None, dispatchId := None)
  }

  ghost predicate Witness(s: State, corpus: string, sha: string) {
    exists k :: k in s.artifacts && s.artifacts[k].corpus == corpus && s.artifacts[k].status.Fetched? &&
      s.artifacts[k].sha == Some(sha)
  }

  ghost predicate RowOk(s: State, k: nat)
    requires k in s.artifacts
  {
    var a := s.artifacts[k];
    a.id == k && k < s.nextId &&
    !a.status.Cataloged? && !a.status.Rejected? &&
    (a.status.Pending? ==> a.attempts < ATTEMPT_LIMIT && a.sha.None? && a.path.None?) &&
    (a.status.Failed? ==> a.attempts == ATTEMPT_LIMIT && a.sha.None?) &&
    (a.status.NotDocument? ==> a.sha.None?) &&
    (a.status.Duplicate? || a.status.Fetched? ==> a.sha.Some?) &&
    (a.status.Fetched? ==> a.path.Some?)
  }

  ghost predicate UniqueFetched(s: State) {
    forall j, k :: (j in s.artifacts && k in s.artifacts && j != k &&
      s.artifacts[j].status.Fetched? && s.artifacts[k].status.Fetched? &&
        s.artifacts[j].corpus == s.artifacts[k].corpus) ==>
      s.artifacts[j].sha != s.artifacts[k].sha
  }

  ghost predicate UniqueUrls(s: State) {
    forall j, k :: j in s.artifacts && k in s.artifacts && j != k && s.artifacts[j].corpus == s.artifacts[k].corpus ==>
      s.artifacts[j].url != s.artifacts[k].url
  }

  /** Every duplicate row has an original. */
  ghost predicate DuplicatesWitnessed(s: State) {
    forall k :: k in s.artifacts && s.artifacts[k].status.Duplicate? && s.artifacts[k].sha.Some? ==>
      Witness(s, s.artifacts[k].corpus, s.artifacts[k].sha.value)
  }

  ghost predicate KeysWitnessed(s: State) {
    forall c, d :: (c, d) in s.docKeys ==> Witness(s, c, d)
  }

  /** An object key names the digest prefix of the bytes put there. */
  ghost predicate PathOf(path: string, sha: string) {
    IsDigest(sha) && exists o, j, f :: Free(f, '/') && path == ObjectKey(o, j, sha, f)
  }

  ghost predicate ObjectsOk(s: State) {
    (forall p :: p in s.objects ==> s.objects[p] in s.seen && PathOf(p, s.objects[p])) &&
    forall k :: (k in s.artifacts && s.artifacts[k].status.Fetched? && s.artifacts[k].path.Some? &&
      s.artifacts[k].sha.Some?) ==>
      s.artifacts[k].sha.value in s.seen && PathOf(s.artifacts[k].path.value, s.artifacts[k].sha.value) &&
      s.artifacts[k].path.value in s.objects
  }

  /** The row the worker holds is the pending row of the table, up to its stamp. */
  ghost predicate WorkerOk(s: State, pc: Worker) {
    var row := pc.row;
    row.id in s.artifacts && row.corpus == s.artifacts[row.id].corpus &&
    (!pc.Committed? ==> row.status.Pending? && SameRow(row, s.artifacts[row.id])) &&
    (pc.Healing? || pc.Marking? || pc.Committed? ==> Witness(s, row.corpus, pc.sha)) &&
    (pc.Storing? || pc.Stored? ==> !HasSha(s.artifacts, row.corpus, pc.sha, row.id)) &&
    (pc.KeyMissed? || pc.Storing? || pc.Stored? ==> pc.sha in s.seen && PathOf(pc.path, pc.sha)) &&
    (pc.Stored? ==> pc.path in s.objects)
  }

  ghost predicate Apart(workers: map<nat, Worker>) {
    forall w, v :: w in workers && v in workers && w != v ==> workers[w].row.corpus != workers[v].row.corpus
  }

  ghost predicate WorkersOk(s: State) {
    (forall w :: w in s.workers ==> WorkerOk(s, s.workers[w])) && Apart(s.workers)
  }

  ghost predicate TableOk(s: State) {
    (forall k :: k in s.artifacts ==> RowOk(s, k)) &&
    UniqueFetched(s) && UniqueUrls(s) && DuplicatesWitnessed(s) && KeysWitnessed(s) && ObjectsOk(s)
  }

  ghost predicate Inv(s: State) {
    TableOk(s) && WorkersOk(s)
  }

  lemma InitInv(s: State)
    requires Init(s)
    ensures Inv(s)
  {
  }

  // ---- steps that leave the existing rows alone

  /** Digests, objects and rows only grow, and a new row holds no digest. */
  ghost predicate Grows(s: State, s': State) {
    s.seen <= s'.seen && s.objects.Keys <= s'.objects.Keys &&
    (forall k :: k in s.artifacts ==> k in s'.artifacts && s'.artifacts[k] == s.artifacts[k]) &&
    (forall k :: k in s'.artifacts && k !in s.artifacts ==> s'.artifacts[k].sha.None?)
  }

  lemma WitnessGrows(s: State, s': State, c: string, d: string)
    requires Witness(s, c, d) && Grows(s, s')
    ensures Witness(s', c, d)
  {
    var k :| k in s.artifacts && s.artifacts[k].corpus == c && s.artifacts[k].status.Fetched? &&
      s.artifacts[k].sha == Some(d);
    assert s'.artifacts[k] == s.artifacts[k];
  }

  lemma WorkerFrame(s: State, s': State, pc: Worker)
    requires WorkerOk(s, pc) && Grows(s, s')
    ensures WorkerOk(s', pc)
  {
    if pc.Healing? || pc.Marking? || pc.Committed? { WitnessGrows(s, s', pc.row.corpus, pc.sha); }
  }

  /** Only worker `w` moved, was dropped, or stayed. */
  lemma WorkersFrame(s: State, s': State, w: nat)
    requires WorkersOk(s) && Grows(s, s')
    requires forall v :: v in s'.workers && v != w ==> v in s.workers && s'.workers[v] == s.workers[v]
    requires w in s'.workers ==> w in s.workers && s'.workers[w].row == s.workers[w].row && WorkerOk(s', s'.workers[w])
    ensures WorkersOk(s')
  {
    forall v | v in s'.workers && v != w ensures WorkerOk(s', s'.workers[v]) { WorkerFrame(s, s', s.workers[v]); }
  }

  lemma WorkerMoves(s: State, s': State, w: nat, pc: Worker)
    requires Inv(s) && w in s.workers && pc.row == s.workers[w].row && WorkerOk(s', pc)
    requires s' == s.(workers := s.workers[w := pc], seen := s'.seen) && s.seen <= s'.seen
    ensures Inv(s')
  {
    AdvancesWorker(s, s', w, pc);
    SameTable(s, s');
  }

  lemma SameTable(s: State, s': State)
    requires TableOk(s) && s'.artifacts == s.artifacts && s'.objects == s.objects && s'.docKeys <= s.docKeys
    requires s.seen <= s'.seen && s'.nextId == s.nextId
    ensures TableOk(s')
  {
    forall k | k in s'.artifacts ensures RowOk(s', k) { assert RowOk(s, k); }
    forall c, d | (c, d) in s'.docKeys ensures Witness(s', c, d) { assert Witness(s, c, d); }
    forall k | k in s'.artifacts && s'.artifacts[k].status.Duplicate? && s'.artifacts[k].sha.Some?
      ensures Witness(s', s'.artifacts[k].corpus, s'.artifacts[k].sha.value)
    {
      assert RowOk(s, k);
      assert Witness(s, s.artifacts[k].corpus, s.artifacts[k].sha.value);
    }
  }

  lemma ServedKeepsInv(s: State, step: Step)
    requires Inv(s) && Enabled(s, step) && step.Served?
    ensures Inv(Apply(s, step))
  {
    var s' := Apply(s, step);
    var pc := s.workers[step.w];
    assert WorkerOk(s, pc);
    WorkerMoves(s, s', step.w, s'.workers[step.w]);
  }

  lemma CheckKeepsInv(s: State, w: nat)
    requires Inv(s) && Enabled(s, CheckTable(w))
    ensures Inv(Apply(s, CheckTable(w)))
  {
    var s' := Apply(s, CheckTable(w));
    var pc := s.workers[w];
    assert WorkerOk(s, pc);
    if HasSha(s.artifacts, pc.row.corpus, pc.sha, pc.row.id) { ShaHasWitness(s, pc); }
    WorkerMoves(s, s', w, s'.workers[w]);
  }

  /** Any other row with the digest, fetched or duplicate, leads to a fetched one. */
  lemma ShaHasWitness(s: State, pc: Worker)
    requires TableOk(s) && pc.KeyMissed? && HasSha(s.artifacts, pc.row.corpus, pc.sha, pc.row.id)
    ensures Witness(s, pc.row.corpus, pc.sha)
  {
    var k :| k in s.artifacts && k != pc.row.id && s.artifacts[k].corpus == pc.row.corpus &&
      s.artifacts[k].sha == Some(pc.sha);
    assert RowOk(s, k);
  }

  lemma QuietKeepsInv(s: State, step: Step)
    requires Inv(s) && Enabled(s, step) && (step.LoseKeys? || step.Crash?)
    ensures Inv(Apply(s, step))
  {
    var s' := Apply(s, step);
    SameTable(s, s');
    if step.Crash? { WorkersFrame(s, s', step.w); }
    else { forall v | v in s'.workers ensures WorkerOk(s', s'.workers[v]) { WorkerFrame(s, s', s.workers[v]); } }
  }

  lemma GateKeepsInv(s: State, step: Step)
    requires Inv(s) && Enabled(s, step) && step.Gate? && Alone(s, step)
    ensures Inv(Apply(s, step))
  {
    var s' := Apply(s, step);
    SameTable(s, s');
    assert RowOk(s, step.id);
    NewWorker(s, s', step.w, s.artifacts[step.id]);
  }

  lemma NewWorker(s: State, s': State, w: nat, row: Artifact)
    requires WorkersOk(s) && row.id in s.artifacts && s.artifacts[row.id] == row && row.status.Pending?
    requires forall v :: v in s.workers ==> s.workers[v].row.corpus != row.corpus
    requires w !in s.workers && s' == s.(workers := s.workers[w := Fetching(row)])
    ensures WorkersOk(s')
  {
    forall v | v in s.workers ensures WorkerOk(s', s.workers[v]) { WorkerFrame(s, s', s.workers[v]); }
  }

  // ---- steps on the keys and the objects

  lemma KeyKeepsTable(s: State, s': State, corpus: string, sha: string)
    requires TableOk(s) && Witness(s, corpus, sha)
    requires s' == s.(docKeys := s.docKeys + {(corpus, sha)}, workers := s'.workers)
    ensures TableOk(s')
  {
    forall k | k in s'.artifacts ensures RowOk(s', k) { assert RowOk(s, k); }
    forall c, d | (c, d) in s'.docKeys ensures Witness(s', c, d) { assert Witness(s, c, d); }
    forall k | k in s'.artifacts && s'.artifacts[k].status.Duplicate? && s'.artifacts[k].sha.Some?
      ensures Witness(s', s'.artifacts[k].corpus, s'.artifacts[k].sha.value)
    {
      assert RowOk(s, k);
      assert Witness(s, s.artifacts[k].corpus, s.artifacts[k].sha.value);
    }
  }

  lemma HealKeepsInv(s: State, w: nat)
    requires Inv(s) && Enabled(s, Heal(w))
    ensures Inv(Apply(s, Heal(w)))
  {
    var s' := Apply(s, Heal(w));
    var pc := s.workers[w];
    assert WorkerOk(s, pc);
    KeyKeepsTable(s, s', pc.row.corpus, pc.sha);
    AdvancesWorker(s, s', w, Marking(pc.row, pc.sha));
  }

  /** A worker moved on, to a program counter as good as its last. */
  lemma AdvancesWorker(s: State, s': State, w: nat, pc: Worker)
    requires WorkersOk(s) && Grows(s, s') && w in s.workers && pc.row == s.workers[w].row
    requires s'.workers == s.workers[w := pc] && WorkerOk(s', pc)
    ensures WorkersOk(s')
  {
    WorkersFrame(s, s', w);
  }

  lemma SetKeyKeepsInv(s: State, w: nat)
    requires Inv(s) && Enabled(s, SetKey(w))
    ensures Inv(Apply(s, SetKey(w)))
  {
    var s' := Apply(s, SetKey(w));
    var pc := s.workers[w];
    assert WorkerOk(s, pc);
    KeyKeepsTable(s, s', pc.row.corpus, pc.sha);
    WorkersFrame(s, s', w);
  }

  /** Rows, keys and the row-only clauses do not depend on the objects. */
  lemma PutKeepsTable(s: State, s': State, path: string, sha: string)
    requires TableOk(s) && sha in s.seen && PathOf(path, sha)
    requires s' == s.(objects := s.objects[path := sha], workers := s'.workers)
    ensures TableOk(s')
  {
    SameTable(s, s'.(objects := s.objects));
    forall k | k in s'.artifacts ensures RowOk(s', k) { assert RowOk(s, k); }
    forall c, d | Witness(s, c, d) ensures Witness(s', c, d) {}
    ObjectsGrow(s, s', path, sha);
  }

  lemma ObjectsGrow(s: State, s': State, path: string, sha: string)
    requires ObjectsOk(s) && sha in s.seen && PathOf(path, sha)
    requires s' == s.(objects := s.objects[path := sha], workers := s'.workers)
    ensures ObjectsOk(s')
  {
  }

  lemma PutKeepsInv(s: State, w: nat)
    requires Inv(s) && Enabled(s, Put(w))
    ensures Inv(Apply(s, Put(w)))
  {
    var s' := Apply(s, Put(w));
    var pc := s.workers[w];
    assert WorkerOk(s, pc);
    PutKeepsTable(s, s', pc.path, pc.sha);
    AdvancesWorker(s, s', w, Stored(pc.row, pc.sha, pc.path));
  }

  // ---- steps on one row

  /** A row was replaced by `row`, or removed; every other row is untouched. */
  ghost predicate OneRow(s: State, s': State, id: nat) {
    id in s.artifacts && s'.docKeys == s.docKeys && s'.objects == s.objects && s'.seen == s.seen &&
    s'.nextId >= s.nextId && s'.artifacts.Keys <= s.artifacts.Keys &&
    forall k :: k in s.artifacts && k != id ==> k in s'.artifacts && s'.artifacts[k] == s.artifacts[k]
  }

  /** A witness survives a step on a row that was not a fetched one, or stays one. */
  lemma WitnessStays(s: State, s': State, id: nat, corpus: string, sha: string)
    requires Witness(s, corpus, sha) && OneRow(s, s', id)
    requires s.artifacts[id].status.Fetched? ==> id in s'.artifacts && SameRow(s'.artifacts[id], s.artifacts[id])
    ensures Witness(s', corpus, sha)
  {
    var k :| k in s.artifacts && s.artifacts[k].corpus == corpus && s.artifacts[k].status.Fetched? &&
      s.artifacts[k].sha == Some(sha);
    assert k in s'.artifacts;
  }

  /** The row left pending for another status, was deleted, counted an attempt, or only changed its stamp. */
  ghost predicate RowStep(s: State, s': State, id: nat) {
    OneRow(s, s', id) &&
    (id in s'.artifacts ==>
      s'.artifacts[id].id == id && s'.artifacts[id].corpus == s.artifacts[id].corpus &&
        s'.artifacts[id].url == s.artifacts[id].url) &&
    (s.artifacts[id].status.Pending? || (id in s'.artifacts && SameRow(s'.artifacts[id], s.artifacts[id])))
  }

  lemma RowStepKeepsTable(s: State, s': State, id: nat)
    requires TableOk(s) && RowStep(s, s', id)
    requires id in s'.artifacts ==> RowOk(s', id)
    requires (id in s'.artifacts && s'.artifacts[id].status.Duplicate? && s.artifacts[id].status.Pending?) ==>
               s'.artifacts[id].sha.Some? && Witness(s, s'.artifacts[id].corpus, s'.artifacts[id].sha.value)
    requires (id in s'.artifacts && s'.artifacts[id].status.Fetched? && s.artifacts[id].status.Pending?) ==>
               s'.artifacts[id].sha.Some? && s'.artifacts[id].path.Some? &&
               !HasSha(s.artifacts, s'.artifacts[id].corpus, s'.artifacts[id].sha.value, id) &&
               s'.artifacts[id].sha.value in s.seen &&
               PathOf(s'.artifacts[id].path.value, s'.artifacts[id].sha.value) &&
                 s'.artifacts[id].path.value in s.objects
    ensures TableOk(s')
  {
    forall k | k in s'.artifacts ensures RowOk(s', k) { if k != id { assert RowOk(s, k); } }
    forall c, d | (c, d) in s'.docKeys ensures Witness(s', c, d) { WitnessStays(s, s', id, c, d); }
    forall k | k in s'.artifacts && s'.artifacts[k].status.Duplicate? && s'.artifacts[k].sha.Some?
      ensures Witness(s', s'.artifacts[k].corpus, s'.artifacts[k].sha.value)
    {
      assert RowOk(s, k);
      WitnessStays(s, s', id, s'.artifacts[k].corpus, s'.artifacts[k].sha.value);
    }
    UniqueStays(s, s', id);
    ObjectsStay(s, s', id);
  }

  lemma UniqueStays(s: State, s': State, id: nat)
    requires UniqueFetched(s) && UniqueUrls(s) && RowStep(s, s', id)
    requires forall k :: k in s'.artifacts ==> RowOk(s', k)
    requires (id in s'.artifacts && s'.artifacts[id].status.Fetched? && s.artifacts[id].status.Pending?) ==>
               s'.artifacts[id].sha.Some? && !HasSha(s.artifacts, s'.artifacts[id].corpus, s'.artifacts[id].sha.value,
                 id)
    ensures UniqueFetched(s') && UniqueUrls(s')
  {
    forall j, k | j in s'.artifacts && k in s'.artifacts && j != k &&
      s'.artifacts[j].status.Fetched? && s'.artifacts[k].status.Fetched? &&
        s'.artifacts[j].corpus == s'.artifacts[k].corpus
      ensures s'.artifacts[j].sha != s'.artifacts[k].sha
    {
      assert RowOk(s', j) && RowOk(s', k);
    }
  }

  lemma ObjectsStay(s: State, s': State, id: nat)
    requires ObjectsOk(s) && RowStep(s, s', id)
    requires (id in s'.artifacts && s'.artifacts[id].status.Fetched? && s.artifacts[id].status.Pending? &&
             s'.artifacts[id].sha.Some? && s'.artifacts[id].path.Some?) ==>
               s'.artifacts[id].sha.value in s.seen &&
               PathOf(s'.artifacts[id].path.value, s'.artifacts[id].sha.value) &&
                 s'.artifacts[id].path.value in s.objects
    ensures ObjectsOk(s')
  {
  }

  /** A worker on another corpus is not disturbed; any worker survives a change of stamp. */
  lemma WorkerStays(s: State, s': State, id: nat, pc: Worker)
    requires WorkerOk(s, pc) && RowStep(s, s', id) && s.artifacts[id].id == id
    requires pc.row.corpus != s.artifacts[id].corpus || (id in s'.artifacts &&
      SameRow(s'.artifacts[id], s.artifacts[id]))
    ensures WorkerOk(s', pc)
  {
    if pc.Healing? || pc.Marking? || pc.Committed? { WitnessStays(s, s', id, pc.row.corpus, pc.sha); }
  }

  lemma WorkersStay(s: State, s': State, id: nat)
    requires WorkersOk(s) && RowStep(s, s', id) && s.artifacts[id].id == id
    requires forall v :: v in s'.workers ==> v in s.workers && s'.workers[v] == s.workers[v]
    requires (forall v :: v in s'.workers ==> s.workers[v].row.corpus != s.artifacts[id].corpus) ||
             (id in s'.artifacts && SameRow(s'.artifacts[id], s.artifacts[id]))
    ensures WorkersOk(s')
  {
    forall v | v in s'.workers ensures WorkerOk(s', s'.workers[v]) { WorkerStays(s, s', id, s.workers[v]); }
  }

  lemma StampKeepsInv(s: State, step: Step)
    requires Inv(s) && Enabled(s, step) && step.Stamp?
    ensures Inv(Apply(s, step))
  {
    var s' := Apply(s, step);
    if step.id in s.artifacts {
      assert RowOk(s, step.id);
      RowStepKeepsTable(s, s', step.id);
      WorkersStay(s, s', step.id);
    }
  }

  /** The row as the worker leaves it: gone, counted, or out of pending without becoming a fetched one. */
  lemma FinishWrites(s: State, step: Step)
    requires Enabled(s, step) && (step.DeadLink? || step.Attempt? || step.NotADocument? || step.MarkDuplicate?)
    requires WorkerOk(s, s.workers[step.w]) && RowOk(s, s.workers[step.w].row.id)
    ensures var s' := Apply(s, step); var pc := s.workers[step.w]; var id := pc.row.id;
      RowStep(s, s', id) &&
      (id in s'.artifacts ==> RowOk(s', id) && !s'.artifacts[id].status.Fetched?) &&
      (id in s'.artifacts && s'.artifacts[id].status.Duplicate? ==>
        pc.Marking? && s'.artifacts[id].sha == Some(pc.sha))
  {
  }

  lemma FinishKeepsTable(s: State, step: Step)
    requires Inv(s) && Enabled(s, step)
    requires step.DeadLink? || step.Attempt? || step.NotADocument? || step.MarkDuplicate?
    ensures TableOk(Apply(s, step)) && RowStep(s, Apply(s, step), s.workers[step.w].row.id)
  {
    var pc := s.workers[step.w];
    assert WorkerOk(s, pc) && RowOk(s, pc.row.id);
    FinishWrites(s, step);
    RowStepKeepsTable(s, Apply(s, step), pc.row.id);
  }

  /** A worker writes or deletes the row it holds, and is done. */
  lemma FinishKeepsInv(s: State, step: Step)
    requires Inv(s) && Enabled(s, step)
    requires step.DeadLink? || step.Attempt? || step.NotADocument? || step.MarkDuplicate?
    ensures Inv(Apply(s, step))
  {
    var id := s.workers[step.w].row.id;
    assert WorkerOk(s, s.workers[step.w]) && RowOk(s, id);
    FinishKeepsTable(s, step);
    WorkersStay(s, Apply(s, step), id);
  }

  lemma CommitKeepsTable(s: State, w: nat)
    requires Inv(s) && Enabled(s, Commit(w))
    ensures TableOk(Apply(s, Commit(w))) && RowStep(s, Apply(s, Commit(w)), s.workers[w].row.id)
    ensures WorkerOk(Apply(s, Commit(w)), Committed(s.workers[w].row, s.workers[w].sha))
  {
    var s' := Apply(s, Commit(w));
    var pc := s.workers[w];
    assert WorkerOk(s, pc) && RowOk(s, pc.row.id);
    RowStepKeepsTable(s, s', pc.row.id);
    assert s'.artifacts[pc.row.id].status.Fetched? && s'.artifacts[pc.row.id].sha == Some(pc.sha);
  }

  lemma CommitKeepsInv(s: State, w: nat)
    requires Inv(s) && Enabled(s, Commit(w))
    ensures Inv(Apply(s, Commit(w)))
  {
    var s' := Apply(s, Commit(w));
    var id := s.workers[w].row.id;
    assert WorkerOk(s, s.workers[w]) && RowOk(s, id);
    CommitKeepsTable(s, w);
    CommitKeepsWorkers(s, s', w);
  }

  lemma CommitKeepsWorkers(s: State, s': State, w: nat)
    requires WorkersOk(s) && w in s.workers && s.workers[w].Stored?
    requires var pc := s.workers[w];
      RowStep(s, s', pc.row.id) && s.artifacts[pc.row.id].id == pc.row.id &&
      s'.workers == s.workers[w := Committed(pc.row, pc.sha)] && WorkerOk(s', Committed(pc.row, pc.sha))
    ensures WorkersOk(s')
  {
    assert WorkerOk(s, s.workers[w]);
    forall v | v in s'.workers && v != w ensures WorkerOk(s', s'.workers[v]) {
      WorkerStays(s, s', s.workers[w].row.id, s.workers[v]);
    }
  }

  /** A row with a new id and a new URL, holding nothing yet. */
  ghost predicate Inserted(s: State, s': State, corpus: string, url: string) {
    s.nextId !in s.artifacts && !HasUrl(s.artifacts, corpus, url) &&
    s' == s.(artifacts := s.artifacts[s.nextId := Artifact(s.nextId, corpus, url, Pending, 0, None, None, None, None)],
             nextId := s.nextId + 1)
  }

  lemma InsertKeepsRows(s: State, s': State, corpus: string, url: string)
    requires Inserted(s, s', corpus, url) && forall k :: k in s.artifacts ==> RowOk(s, k)
    requires UniqueFetched(s) && UniqueUrls(s) && ObjectsOk(s)
    ensures (forall k :: k in s'.artifacts ==> RowOk(s', k)) && UniqueFetched(s') && UniqueUrls(s') && ObjectsOk(s')
  {
    forall k | k in s'.artifacts ensures RowOk(s', k) { if k != s.nextId { assert RowOk(s, k); } }
  }

  lemma InsertKeepsWitnesses(s: State, s': State, corpus: string, url: string)
    requires Inserted(s, s', corpus, url) && DuplicatesWitnessed(s) && KeysWitnessed(s)
    ensures DuplicatesWitnessed(s') && KeysWitnessed(s')
  {
    forall c, d | Witness(s, c, d) ensures Witness(s', c, d) { WitnessGrows(s, s', c, d); }
    forall k | k in s'.artifacts && s'.artifacts[k].status.Duplicate? && s'.artifacts[k].sha.Some?
      ensures Witness(s', s'.artifacts[k].corpus, s'.artifacts[k].sha.value)
    {
      assert Witness(s, s.artifacts[k].corpus, s.artifacts[k].sha.value);
    }
  }

  lemma InsertKeepsWorkers(s: State, s': State, corpus: string, url: string)
    requires Inserted(s, s', corpus, url) && WorkersOk(s)
    ensures WorkersOk(s')
  {
    forall v | v in s'.workers ensures WorkerOk(s', s'.workers[v]) { WorkerFrame(s, s', s.workers[v]); }
  }

  lemma InsertKeepsInv(s: State, step: Step)
    requires Inv(s) && Enabled(s, step) && step.Insert?
    ensures Inv(Apply(s, step))
  {
    var s' := Apply(s, step);
    forall k | k in s.artifacts ensures k != s.nextId { assert RowOk(s, k); }
    InsertKeepsRows(s, s', step.corpus, step.url);
    InsertKeepsWitnesses(s, s', step.corpus, step.url);
    InsertKeepsWorkers(s, s', step.corpus, step.url);
  }

  lemma StepKeepsInv(s: State, step: Step)
    requires Inv(s) && Enabled(s, step) && Alone(s, step)
    ensures Inv(Apply(s, step))
  {
    match step
    case Insert(_, _) => InsertKeepsInv(s, step);
    case Stamp(_, _, _) => StampKeepsInv(s, step);
    case LoseKeys(_) => QuietKeepsInv(s, step);
    case Crash(_) => QuietKeepsInv(s, step);
    case Gate(_, _, _) => GateKeepsInv(s, step);
    case DeadLink(_) => FinishKeepsInv(s, step);
    case Attempt(_) => FinishKeepsInv(s, step);
    case NotADocument(_) => FinishKeepsInv(s, step);
    case Served(_, _, _, _) => ServedKeepsInv(s, step);
    case CheckTable(w) => CheckKeepsInv(s, w);
    case Heal(w) => HealKeepsInv(s, w);
    case MarkDuplicate(_) => FinishKeepsInv(s, step);
    case Put(w) => PutKeepsInv(s, w);
    case Commit(w) => CommitKeepsInv(s, w);
    case SetKey(w) => SetKeyKeepsInv(s, w);
  }

  lemma {:induction false} RunKeepsInv(s: State, steps: seq<Step>)
    requires Inv(s) && ValidRun(s, steps) && NoOverlap(s, steps)
    ensures Inv(Run(s, steps))
    decreases |steps|
  {
    if steps != [] {
      StepKeepsInv(s, steps[0]);
      RunKeepsInv(Apply(s, steps[0]), steps[1..]);
    }
  }
}
