/** Candidate staging: a lossy cache of URLs in front of the artifact table.

    Each kv, table and queue operation of a call is one step; any number of calls interleave, each may crash
    between two steps, and any keys may vanish at any step. */
module Staging {
  import opened Options
  import opened StorageKeys
  import F = FetchProtocol

  type Artifact = F.Artifact

  const URL_LEN := 600

  datatype FetchTask = FetchTask(corpus: string, artifact: nat, dispatchId: nat, at: int)

  /** `inserted` is bookkeeping: every (corpus, URL prefix) ever inserted. */
  datatype Tables = Tables(
    artifacts: map<nat, Artifact>, nextId: nat, nextDispatch: nat, keys: set<(string, string)>,
    published: seq<FetchTask>, inserted: set<(string, string)>)

  function Prefix(url: string): string { Cut(url, URL_LEN) }

  // ---- the operations of one call

  function Insert(t: Tables, corpus: string, url: string): Tables {
    t.(artifacts := t.artifacts[t.nextId := F.Artifact.Artifact(t.nextId, corpus, Prefix(url), F.Pending, 0, None,
      None, None, None)],
       nextId := t.nextId + 1, inserted := t.inserted + {(corpus, Prefix(url))})
  }

  function SetKey(t: Tables, corpus: string, url: string): Tables { t.(keys := t.keys + {(corpus, url)}) }

  function Stamp(t: Tables, id: nat, at: int): Tables {
    if id in t.artifacts then
      t.(artifacts := t.artifacts[id := t.artifacts[id].(dispatchedAt := Some(at), dispatchId := Some(t.nextDispatch))],
         nextDispatch := t.nextDispatch + 1)
    else t.(nextDispatch := t.nextDispatch + 1)
  }

  function Publish(t: Tables, task: FetchTask): Tables { t.(published := t.published + [task]) }

  /** One undisturbed call: dedupe, insert, set the key, stamp, publish. */
  function StageOne(t: Tables, corpus: string, url: string, at: int): (Tables, bool) {
    if (corpus, url) in t.keys then (t, false)
    else if F.HasUrl(t.artifacts, corpus, Prefix(url)) then (SetKey(t, corpus, url), false)
    else
      var task := FetchTask(corpus, t.nextId, t.nextDispatch, at);
      (Publish(Stamp(SetKey(Insert(t, corpus, url), corpus, url), t.nextId, at), task), true)
  }

  // ---- the step system

  datatype Call =
    | Missed(corpus: string, url: string)
    | Inserted(corpus: string, url: string, id: nat)
    | Keyed(corpus: string, url: string, id: nat)
    | Stamped(corpus: string, id: nat, dispatchId: nat, at: int)
    | Done(staged: bool)

  datatype State = State(tables: Tables, calls: map<nat, Call>)

  datatype Step =
    | Begin(c: nat, corpus: string, url: string)
    | DoInsert(c: nat)
    | DoKey(c: nat)
    | DoStamp(c: nat, at: int)
    | DoPublish(c: nat)
    | Lose(keys: set<(string, string)>)
    | Flush
    | Crash(c: nat)
    | Touch(id: nat, row: Artifact)
    | Delete(id: nat)

  predicate Enabled(s: State, step: Step) {
    match step
    case Begin(c, _, _) => c !in s.calls
    case DoInsert(c) => c in s.calls && s.calls[c].Missed?
    case DoKey(c) => c in s.calls && s.calls[c].Inserted?
    case DoStamp(c, _) => c in s.calls && s.calls[c].Keyed?
    case DoPublish(c) => c in s.calls && s.calls[c].Stamped?
    case Lose(_) => true
    case Flush => true
    case Crash(_) => true
    case Touch(id, row) =>
      id in s.tables.artifacts && row.id == id && row.corpus == s.tables.artifacts[id].corpus &&
        row.url == s.tables.artifacts[id].url
    case Delete(_) => true
  }

  /** With the cache, a call whose key is there skips at once; without it, every call asks the table. */
  function Apply(s: State, step: Step, cached: bool): State
    requires Enabled(s, step)
  {
    var t := s.tables;
    match step
    case Begin(c, corpus, url) =>
      s.(calls := s.calls[c := if cached && (corpus, url) in t.keys then Done(false) else Missed(corpus, url)])
    case DoInsert(c) =>
      var pc := s.calls[c];
      if F.HasUrl(t.artifacts, pc.corpus, Prefix(pc.url))
      then State(SetKey(t, pc.corpus, pc.url), s.calls[c := Done(false)])
      else State(Insert(t, pc.corpus, pc.url), s.calls[c := Inserted(pc.corpus, pc.url, t.nextId)])
    case DoKey(c) =>
      var pc := s.calls[c];
      State(SetKey(t, pc.corpus, pc.url), s.calls[c := Keyed(pc.corpus, pc.url, pc.id)])
    case DoStamp(c, at) =>
      State(Stamp(t, s.calls[c].id, at), s.calls[c := Stamped(s.calls[c].corpus, s.calls[c].id, t.nextDispatch, at)])
    case DoPublish(c) =>
      var pc := s.calls[c];
      State(Publish(t, FetchTask(pc.corpus, pc.id, pc.dispatchId, pc.at)), s.calls[c := Done(true)])
    case Lose(keys) => s.(tables := t.(keys := t.keys - keys))
    case Flush => s.(tables := t.(keys := {}))
    case Crash(c) => s.(calls := s.calls - {c})
    case Touch(id, row) => s.(tables := t.(artifacts := t.artifacts[id := row]))
    case Delete(id) => s.(tables := t.(artifacts := t.artifacts - {id}))
  }

  ghost predicate Init(s: State) {
    s.tables.artifacts == map[] && s.tables.keys == {} && s.tables.inserted == {} && s.calls == map[]
  }

  predicate ValidRun(s: State, steps: seq<Step>, cached: bool)
    decreases |steps|
  {
    steps == [] || (Enabled(s, steps[0]) && ValidRun(Apply(s, steps[0], cached), steps[1..], cached))
  }

  function Run(s: State, steps: seq<Step>, cached: bool): State
    requires ValidRun(s, steps, cached)
    decreases |steps|
  {
    if steps == [] then s else Run(Apply(s, steps[0], cached), steps[1..], cached)
  }

  // ---- what every run keeps

  ghost predicate RowsInserted(t: Tables) {
    forall k :: k in t.artifacts ==>
      k < t.nextId && (t.artifacts[k].corpus, t.artifacts[k].url) in t.inserted
  }

  ghost predicate OneRowPerUrl(t: Tables) {
    forall j, k :: j in t.artifacts && k in t.artifacts && j != k && t.artifacts[j].corpus == t.artifacts[k].corpus ==>
      t.artifacts[j].url != t.artifacts[k].url
  }

  ghost predicate KeysInserted(t: Tables) {
    forall c, u :: (c, u) in t.keys ==> (c, Prefix(u)) in t.inserted
  }

  ghost predicate CallInserted(t: Tables, pc: Call) {
    pc.Inserted? || pc.Keyed? ==> (pc.corpus, Prefix(pc.url)) in t.inserted
  }

  ghost predicate Inv(s: State) {
    RowsInserted(s.tables) && OneRowPerUrl(s.tables) && KeysInserted(s.tables) &&
    forall c :: c in s.calls ==> CallInserted(s.tables, s.calls[c])
  }

  lemma StepKeepsInv(s: State, step: Step, cached: bool)
    requires Inv(s) && Enabled(s, step)
    ensures Inv(Apply(s, step, cached)) && s.tables.inserted <= Apply(s, step, cached).tables.inserted
  {
    var s' := Apply(s, step, cached);
    forall c | c in s'.calls ensures CallInserted(s'.tables, s'.calls[c]) {
      if c in s.calls { assert CallInserted(s.tables, s.calls[c]); }
    }
    if step.DoInsert? {
      var pc := s.calls[step.c];
      assert F.HasUrl(s.tables.artifacts, pc.corpus, Prefix(pc.url)) ==>
        (pc.corpus, Prefix(pc.url)) in s.tables.inserted;
    }
  }

  lemma {:induction false} RunKeepsInv(s: State, steps: seq<Step>, cached: bool)
    requires Inv(s) && ValidRun(s, steps, cached)
    ensures Inv(Run(s, steps, cached))
    decreases |steps|
  {
    if steps != [] {
      StepKeepsInv(s, steps[0], cached);
      RunKeepsInv(Apply(s, steps[0], cached), steps[1..], cached);
    }
  }

  /** At most one row per corpus and URL prefix, and every skip names a prefix that was inserted before. */
  lemma SkipsWereInserted(s: State, steps: seq<Step>, cached: bool)
    requires Init(s) && ValidRun(s, steps, cached)
    ensures var t := Run(s, steps, cached).tables; OneRowPerUrl(t) && KeysInserted(t)
  {
    RunKeepsInv(s, steps, cached);
  }

  // ---- the cache against the table

  /** Equal but for the keys. */
  ghost predicate SameButKeys(a: State, b: State) {
    a.tables.(keys := {}) == b.tables.(keys := {}) && a.calls == b.calls
  }

  /** No row has been deleted: every prefix ever inserted still has its row. */
  ghost predicate NoneDeleted(t: Tables) {
    forall c, u :: (c, u) in t.inserted ==> F.HasUrl(t.artifacts, c, u)
  }

  predicate Deletes(step: Step) { step.Delete? }

  predicate NoDelete(steps: seq<Step>) { forall i :: 0 <= i < |steps| ==> !Deletes(steps[i]) }

  /** What a program without the cache does where the cached one takes `step`: a skip becomes a refused insert. */
  function Uncached(s: State, step: Step): seq<Step> {
    if step.Begin? && (step.corpus, step.url) in s.tables.keys then [step, DoInsert(step.c)] else [step]
  }

  function UncachedRun(s: State, steps: seq<Step>): seq<Step>
    requires ValidRun(s, steps, true)
    decreases |steps|
  {
    if steps == [] then [] else Uncached(s, steps[0]) + UncachedRun(Apply(s, steps[0], true), steps[1..])
  }

  lemma {:induction false} RunConcat(s: State, a: seq<Step>, b: seq<Step>, cached: bool)
    requires ValidRun(s, a, cached) && ValidRun(Run(s, a, cached), b, cached)
    ensures ValidRun(s, a + b, cached) && Run(s, a + b, cached) == Run(Run(s, a, cached), b, cached)
    decreases |a|
  {
    if a == [] {
      assert a + b == b;
    } else {
      RunConcat(Apply(s, a[0], cached), a[1..], b, cached);
      assert (a + b)[1..] == a[1..] + b;
    }
  }

  lemma {:induction false} OneStep(s: State, step: Step, cached: bool)
    requires Enabled(s, step)
    ensures ValidRun(s, [step], cached) && Run(s, [step], cached) == Apply(s, step, cached)
  {
    assert [step][1..] == [];
  }

  lemma TwoSteps(s: State, a: Step, b: Step, cached: bool)
    requires Enabled(s, a) && Enabled(Apply(s, a, cached), b)
    ensures ValidRun(s, [a, b], cached) && Run(s, [a, b], cached) == Apply(Apply(s, a, cached), b, cached)
  {
    assert [a, b][1..] == [b];
    OneStep(Apply(s, a, cached), b, cached);
  }

  lemma NoneDeletedStays(s: State, step: Step, cached: bool)
    requires NoneDeleted(s.tables) && Inv(s) && Enabled(s, step) && !Deletes(step)
    ensures NoneDeleted(Apply(s, step, cached).tables)
  {
    var t, t' := s.tables, Apply(s, step, cached).tables;
    forall c, u | (c, u) in t'.inserted ensures F.HasUrl(t'.artifacts, c, u) {
      if (c, u) in t.inserted {
        var k :| k in t.artifacts && t.artifacts[k].corpus == c && t.artifacts[k].url == u;
        assert k in t'.artifacts && t'.artifacts[k].corpus == c && t'.artifacts[k].url == u;
      } else {
        assert t.nextId in t'.artifacts;
      }
    }
  }

  /** Without deletions, each step of the cached program is matched by the uncached one. */
  lemma StepMatches(s: State, p: State, step: Step)
    requires Inv(s) && NoneDeleted(s.tables) && SameButKeys(s, p) && Enabled(s, step) && !Deletes(step)
    ensures ValidRun(p, Uncached(s, step), false)
    ensures SameButKeys(Apply(s, step, true), Run(p, Uncached(s, step), false))
  {
    if step.Begin? && (step.corpus, step.url) in s.tables.keys {
      assert F.HasUrl(s.tables.artifacts, step.corpus, Prefix(step.url));
      assert p.tables.artifacts == s.tables.artifacts;
      TwoSteps(p, step, DoInsert(step.c), false);
    } else {
      StepIgnoresKeys(s, p, step, true, false);
      OneStep(p, step, false);
    }
  }

  /** A step reads no key, except where a call begins in front of the cache. */
  lemma StepIgnoresKeys(s: State, p: State, step: Step, cached: bool, other: bool)
    requires SameButKeys(s, p) && Enabled(s, step)
    requires step.Begin? && cached ==> (step.corpus, step.url) !in s.tables.keys
    requires step.Begin? && other ==> (step.corpus, step.url) !in p.tables.keys
    ensures Enabled(p, step) && SameButKeys(Apply(s, step, cached), Apply(p, step, other))
  {
    assert p.tables.artifacts == s.tables.artifacts && p.tables.nextId == s.tables.nextId;
  }

  lemma {:induction false} RunMatches(s: State, p: State, steps: seq<Step>)
    requires Inv(s) && NoneDeleted(s.tables) && SameButKeys(s, p) && ValidRun(s, steps, true) && NoDelete(steps)
    ensures ValidRun(p, UncachedRun(s, steps), false)
    ensures SameButKeys(Run(s, steps, true), Run(p, UncachedRun(s, steps), false))
    decreases |steps|
  {
    if steps != [] {
      var first := Uncached(s, steps[0]);
      assert !Deletes(steps[0]) && NoDelete(steps[1..]);
      StepMatches(s, p, steps[0]);
      StepKeepsInv(s, steps[0], true);
      NoneDeletedStays(s, steps[0], true);
      RunMatches(Apply(s, steps[0], true), Run(p, first, false), steps[1..]);
      RunConcat(p, first, UncachedRun(Apply(s, steps[0], true), steps[1..]), false);
    }
  }

  /** While no row is deleted, every run with the cache, under any interleaving, crashes and lost keys, is a run
      without it: the same artifacts, published tasks and answers of every call. */
  lemma CacheAgreesWithTable(s: State, steps: seq<Step>)
    requires Init(s) && ValidRun(s, steps, true) && NoDelete(steps)
    ensures ValidRun(s, UncachedRun(s, steps), false)
    ensures SameButKeys(Run(s, steps, true), Run(s, UncachedRun(s, steps), false))
  {
    RunMatches(s, s, steps);
  }

  /** The same steps, with a failover before each of them. */
  function Forgetful(steps: seq<Step>): seq<Step> {
    if steps == [] then [] else [Flush, steps[0]] + Forgetful(steps[1..])
  }

  lemma {:induction false} ForgetfulMatches(p: State, s: State, steps: seq<Step>)
    requires ValidRun(p, steps, false) && SameButKeys(s, p)
    ensures ValidRun(s, Forgetful(steps), true) && SameButKeys(Run(s, Forgetful(steps), true), Run(p, steps, false))
    decreases |steps|
  {
    if steps != [] {
      var bare := Apply(s, Flush, true);
      assert SameButKeys(bare, p) && bare.tables.artifacts == p.tables.artifacts;
      StepIgnoresKeys(p, bare, steps[0], false, true);
      TwoSteps(s, Flush, steps[0], true);
      ForgetfulMatches(Apply(p, steps[0], false), Apply(bare, steps[0], true), steps[1..]);
      RunConcat(s, [Flush, steps[0]], Forgetful(steps[1..]), true);
    }
  }

  /** And every run without the cache is one with it, so the two programs have the same runs. */
  lemma TableAgreesWithCache(s: State, steps: seq<Step>)
    requires ValidRun(s, steps, false)
    ensures ValidRun(s, Forgetful(steps), true) && SameButKeys(Run(s, Forgetful(steps), true), Run(s, steps, false))
  {
    ForgetfulMatches(s, s, steps);
  }

  // ---- one call

  /** An undisturbed call is `StageOne`. */
  lemma AloneIsStageOne(s: State, c: nat, corpus: string, url: string, at: int)
    requires c !in s.calls && s.tables.nextId !in s.tables.artifacts
    ensures var (tables, staged) := StageOne(s.tables, corpus, url, at);
      var begun := Apply(s, Begin(c, corpus, url), true);
      if begun.calls[c].Done? then begun.tables == tables && !staged
      else
        var inserted := Apply(begun, DoInsert(c), true);
        if inserted.calls[c].Done? then inserted.tables == tables && !staged
        else
          var ended := Apply(Apply(Apply(inserted, DoKey(c), true), DoStamp(c, at), true), DoPublish(c), true);
          ended.tables == tables && staged && ended.calls[c] == Done(true)
  {
  }

  /** Cache and table answer a call differently exactly when its key outlived its row. */
  lemma WhenASkipIsWrong(t: Tables, corpus: string, url: string, at: int)
    ensures StageOne(t, corpus, url, at).1 != StageOne(t.(keys := {}), corpus, url, at).1 <==>
      (corpus, url) in t.keys && !F.HasUrl(t.artifacts, corpus, Prefix(url))
  {
  }

  /** So a URL whose row was deleted as a dead link is not staged again until its key is lost. */
  lemma {:induction false} KeyStaysUntilLost(s: State, steps: seq<Step>, corpus: string, url: string)
    requires ValidRun(s, steps, true) && (corpus, url) in s.tables.keys
    requires forall i :: 0 <= i < |steps| ==> !steps[i].Lose? && !steps[i].Flush?
    ensures (corpus, url) in Run(s, steps, true).tables.keys
    decreases |steps|
  {
    if steps != [] {
      assert !steps[0].Lose? && !steps[0].Flush?;
      KeyStaysUntilLost(Apply(s, steps[0], true), steps[1..], corpus, url);
    }
  }

  /** A run that ends so: the URL is staged, its row is deleted as a dead link, and the next call skips it. */
  lemma DeadLinkIsNotStagedAgain(corpus: string, url: string) returns (s: State, steps: seq<Step>)
    ensures Init(s) && ValidRun(s, steps, true)
    ensures var s' := Run(s, steps, true); s'.tables.artifacts == map[] && 1 in s'.calls && s'.calls[1] == Done(false)
  {
    s := State(Tables(map[], 0, 0, {}, [], {}), map[]);
    var begun := [Begin(0, corpus, url), DoInsert(0)];
    TwoSteps(s, Begin(0, corpus, url), DoInsert(0), true);
    var s2 := Run(s, begun, true);
    assert s2.calls == map[0 := Inserted(corpus, url, 0)] && s2.tables.artifacts.Keys == {0};
    var deleted := [DoKey(0), Delete(0)];
    TwoSteps(s2, DoKey(0), Delete(0), true);
    var s4 := Run(s2, deleted, true);
    assert s4.tables.artifacts == map[] && (corpus, url) in s4.tables.keys && s4.calls.Keys == {0};
    OneStep(s4, Begin(1, corpus, url), true);
    RunConcat(s2, deleted, [Begin(1, corpus, url)], true);
    RunConcat(s, begun, deleted + [Begin(1, corpus, url)], true);
    steps := begun + (deleted + [Begin(1, corpus, url)]);
  }

  // ---- many calls

  function StageMany(t: Tables, corpus: string, urls: seq<string>, at: int): (Tables, nat) {
    if urls == [] then (t, 0)
    else
      var (t1, n) := StageMany(t, corpus, urls[..|urls| - 1], at);
      var (t2, staged) := StageOne(t1, corpus, urls[|urls| - 1], at);
      (t2, if staged then n + 1 else n)
  }

  /** Every staged candidate takes one id. */
  lemma {:induction false} StagedIds(t: Tables, corpus: string, urls: seq<string>, at: int)
    ensures var (t', n) := StageMany(t, corpus, urls, at); t'.nextId == t.nextId + n
    decreases |urls|
  {
    if urls != [] { StagedIds(t, corpus, urls[..|urls| - 1], at); }
  }

  /** The number returned is the number of rows added, and of tasks published. */
  lemma {:induction false} StagedIsAdded(t: Tables, corpus: string, urls: seq<string>, at: int)
    requires forall k :: k in t.artifacts ==> k < t.nextId
    ensures var (t', n) := StageMany(t, corpus, urls, at);
      |t'.artifacts| == |t.artifacts| + n && |t'.published| == |t.published| + n && t'.nextId == t.nextId + n &&
      (forall k :: k in t'.artifacts ==> k < t'.nextId) && forall k :: k in t.artifacts ==>
        k in t'.artifacts && t'.artifacts[k] == t.artifacts[k]
    decreases |urls|
  {
    if urls != [] {
      StagedIsAdded(t, corpus, urls[..|urls| - 1], at);
      OneIsAdded(StageMany(t, corpus, urls[..|urls| - 1], at).0, corpus, urls[|urls| - 1], at);
    }
  }

  lemma OneIsAdded(t: Tables, corpus: string, url: string, at: int)
    requires forall k :: k in t.artifacts ==> k < t.nextId
    ensures var (t', staged) := StageOne(t, corpus, url, at);
      var n := if staged then 1 else 0;
      |t'.artifacts| == |t.artifacts| + n && |t'.published| == |t.published| + n && t'.nextId == t.nextId + n &&
      (forall k :: k in t'.artifacts ==> k < t'.nextId) && forall k :: k in t.artifacts ==>
        k in t'.artifacts && t'.artifacts[k] == t.artifacts[k]
  {
    var (t', staged) := StageOne(t, corpus, url, at);
    if staged {
      assert t'.artifacts.Keys == t.artifacts.Keys + {t.nextId};
      assert |t'.artifacts| == |t'.artifacts.Keys| && |t.artifacts| == |t.artifacts.Keys|;
    }
  }
}
