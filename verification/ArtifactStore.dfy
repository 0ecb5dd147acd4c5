/** The artifact table, its caches, the object store and the fetch queue, updated in place.

    `kept` is any set of states that no step of the fetch protocol leaves (handlers of one corpus not overlapping);
    the object stays in it, so it keeps whatever every step of the fetch protocol keeps. */
module ArtifactStore {
  import opened Options
  import opened Staging
  import F = FetchProtocol
  import FetchSafety

  class Store {
    var artifacts: map<nat, Artifact>
    var nextId: nat
    var nextDispatch: nat
    var keys: set<(string, string)>
    var docKeys: set<(string, string)>
    var objects: map<string, string>
    var published: seq<FetchTask>
    ghost var inserted: set<(string, string)>
    ghost var workers: map<nat, F.Worker>
    ghost var seen: set<string>
    ghost const kept: iset<F.State>

    /** The tables as staging sees them. */
    ghost function View(): Tables
      reads this
    {
      Tables(artifacts, nextId, nextDispatch, keys, published, inserted)
    }

    /** The state as the fetch protocol sees it. */
    ghost function FetchView(): F.State
      reads this
    {
      F.State.State(artifacts, docKeys, objects, workers, nextId, seen)
    }

    ghost predicate Valid()
      reads this
    {
      Closed(kept) && FetchView() in kept
    }

    constructor (ghost kept: iset<F.State>)
      requires Closed(kept) && F.State.State(map[], {}, map[], map[], 0, {}) in kept
      ensures Valid() && this.kept == kept
      ensures FetchView() == F.State.State(map[], {}, map[], map[], 0, {}) && View() == Tables(map[], 0, 0, {}, [], {})
    {
      artifacts, nextId, nextDispatch, keys, docKeys, objects, published := map[], 0, 0, {}, {}, map[], [];
      inserted, workers, seen := {}, map[], {};
      this.kept := kept;
    }

    /** Any keys may vanish. */
    method LoseKeys(urls: set<(string, string)>, docs: set<(string, string)>)
      requires Valid()
      modifies this`keys, this`docKeys
      ensures Valid() && View() == old(View()).(keys := old(keys) - urls)
      ensures FetchView() == old(FetchView()).(docKeys := old(docKeys) - docs)
    {
      ghost var before := FetchView();
      keys := keys - urls;
      docKeys := docKeys - docs;
      assert FetchView() == F.Apply(before, F.Step.LoseKeys(docs));
    }

    /** Refuses a second row for the same corpus and URL. */
    method InsertArtifact(corpus: string, url: string) returns (id: Option<nat>)
      requires Valid()
      modifies this`artifacts, this`nextId, this`inserted
      ensures Valid()
      ensures F.HasUrl(old(artifacts), corpus, Prefix(url)) ==> id == None && View() == old(View())
      ensures !F.HasUrl(old(artifacts), corpus, Prefix(url)) ==>
        id == Some(old(nextId)) && View() == Insert(old(View()), corpus, url)
    {
      var prefix := Prefix(url);
      var rest := artifacts.Keys;
      while rest != {}
        invariant rest <= artifacts.Keys
        invariant forall k :: k in artifacts && k !in rest ==>
          !(artifacts[k].corpus == corpus && artifacts[k].url == prefix)
        decreases |rest|
      {
        var k :| k in rest;
        if artifacts[k].corpus == corpus && artifacts[k].url == prefix { return None; }
        rest := rest - {k};
      }
      ghost var before := FetchView();
      id := Some(nextId);
      artifacts := artifacts[nextId := F.Artifact.Artifact(nextId, corpus, prefix, F.Pending, 0, None, None, None,
        None)];
      nextId := nextId + 1;
      inserted := inserted + {(corpus, prefix)};
      assert FetchView() == F.Apply(before, F.Step.Insert(corpus, prefix));
    }

    method StampArtifact(id: nat, at: int) returns (dispatchId: nat)
      requires Valid()
      modifies this`artifacts, this`nextDispatch
      ensures Valid() && View() == Stamp(old(View()), id, at) && dispatchId == old(nextDispatch)
    {
      ghost var before := FetchView();
      dispatchId := nextDispatch;
      nextDispatch := nextDispatch + 1;
      if id in artifacts {
        artifacts := artifacts[id := artifacts[id].(dispatchedAt := Some(at), dispatchId := Some(dispatchId))];
      }
      assert FetchView() == F.Apply(before, F.Step.Stamp(id, at, dispatchId));
    }

    /** The update overwrites the row if it is still there. */
    method UpdateArtifact(row: Artifact)
      modifies this`artifacts
      ensures artifacts == F.Update(old(artifacts), row)
    {
      if row.id in artifacts { artifacts := artifacts[row.id := row]; }
    }

    method CorpusHasSha256(corpus: string, sha: string, except: nat) returns (found: bool)
      ensures found == F.HasSha(artifacts, corpus, sha, except)
    {
      var rest := artifacts.Keys;
      while rest != {}
        invariant rest <= artifacts.Keys
        invariant forall k :: k in artifacts && k !in rest ==>
          !(k != except && artifacts[k].corpus == corpus && artifacts[k].sha == Some(sha))
        decreases |rest|
      {
        var k :| k in rest;
        if k != except && artifacts[k].corpus == corpus && artifacts[k].sha == Some(sha) { return true; }
        rest := rest - {k};
      }
      found := false;
    }
  }

  /** No step of the fetch protocol leads out of the set. */
  ghost predicate Closed(kept: iset<F.State>) {
    forall s, step :: s in kept && F.Enabled(s, step) && F.Alone(s, step) ==> F.Apply(s, step) in kept
  }

  /** The fetch invariant is such a set. */
  lemma InvariantIsClosed()
    ensures Closed(iset s | FetchSafety.Inv(s))
  {
    forall s, step | FetchSafety.Inv(s) && F.Enabled(s, step) && F.Alone(s, step)
      ensures FetchSafety.Inv(F.Apply(s, step)) {
      FetchSafety.StepKeepsInv(s, step);
    }
  }

  /** A URL whose key is set, or whose first 600 characters the corpus has a row for, is not staged again; any other
      gets a pending row with a fresh id, its key, a fresh stamp and its message. */
  ghost predicate CandidateStaged(t: Tables, t': Tables, corpus: string, url: string, at: int, staged: bool) {
    var short := if |url| <= 600 then url else url[..600];
    var known := exists k :: k in t.artifacts && t.artifacts[k].corpus == corpus && t.artifacts[k].url == short;
    if (corpus, url) in t.keys then !staged && t' == t
    else if known then !staged && t' == t.(keys := t.keys + {(corpus, url)})
    else
      staged && t' == Tables(
        t.artifacts[t.nextId := F.Artifact.Artifact(t.nextId, corpus, short, F.Pending, 0, None, None, Some(at),
          Some(t.nextDispatch))],
        t.nextId + 1, t.nextDispatch + 1, t.keys + {(corpus, url)},
        t.published + [FetchTask(corpus, t.nextId, t.nextDispatch, at)], t.inserted + {(corpus, short)})
  }

  lemma StageOneStages(t: Tables, corpus: string, url: string, at: int)
    ensures CandidateStaged(t, StageOne(t, corpus, url, at).0, corpus, url, at, StageOne(t, corpus, url, at).1)
  {
    var short := if |url| <= 600 then url else url[..600];
    assert Prefix(url) == short;
    var row := F.Artifact.Artifact(t.nextId, corpus, short, F.Pending, 0, None, None, None, None);
    assert t.artifacts[t.nextId := row][t.nextId := row.(dispatchedAt := Some(at), dispatchId := Some(t.nextDispatch))]
      == t.artifacts[t.nextId := row.(dispatchedAt := Some(at), dispatchId := Some(t.nextDispatch))];
  }

  /** Dedupe, insert, set the key, stamp, publish. */
  method StageCandidate(st: Store, corpus: string, url: string, at: int) returns (staged: bool)
    requires st.Valid()
    modifies st`artifacts, st`nextId, st`inserted, st`keys, st`nextDispatch, st`published
    ensures st.Valid() && (st.View(), staged) == StageOne(old(st.View()), corpus, url, at)
    ensures CandidateStaged(old(st.View()), st.View(), corpus, url, at, staged)
  {
    StageOneStages(st.View(), corpus, url, at);
    if (corpus, url) in st.keys { return false; }
    var id := st.InsertArtifact(corpus, url);
    st.keys := st.keys + {(corpus, url)};
    if id.None? { return false; }
    var dispatchId := st.StampArtifact(id.value, at);
    st.published := st.published + [FetchTask(corpus, id.value, dispatchId, at)];
    staged := true;
  }

  method StageAll(st: Store, corpus: string, urls: seq<string>, at: int) returns (staged: nat)
    requires st.Valid()
    modifies st`artifacts, st`nextId, st`inserted, st`keys, st`nextDispatch, st`published
    ensures st.Valid() && (st.View(), staged) == StageMany(old(st.View()), corpus, urls, at)
  {
    staged := 0;
    for i := 0 to |urls|
      invariant st.Valid() && (st.View(), staged) == StageMany(old(st.View()), corpus, urls[..i], at)
    {
      assert urls[..i + 1][..i] == urls[..i];
      var one := StageCandidate(st, corpus, urls[i], at);
      if one { staged := staged + 1; }
    }
    assert urls[..|urls|] == urls;
  }
}
