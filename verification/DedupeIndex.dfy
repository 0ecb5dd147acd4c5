/** Attachment storage with its dedupe index, and rebuilding the index from the object listing. */
module DedupeIndex {
  import opened Options
  import opened StorageKeys
  import SlugLaws

  /** `accepted` is the outcome of the file-type gate; the bytes wait at `spoolKey`. */
  datatype Attachment = Attachment(filename: string, accepted: bool, spoolKey: string)

  datatype Ref = Rejected | Duplicate(key: string) | Stored(key: string)

  /** A dedupe entry: a campaign slug and a digest prefix. */
  datatype Entry = Entry(slug: string, digest8: string)

  /** Objects by key, bytes represented by their digest; and the dedupe entries of the key-value store. */
  datatype Vault = Vault(objects: map<string, string>, index: map<Entry, string>)

  ghost predicate Digests(v: Vault) {
    forall k :: k in v.objects ==> IsDigest(v.objects[k])
  }

  function EntryFor(campaign: string, digest8: string): Entry {
    Entry(Slug(campaign), digest8)
  }

  /** The name of an entry in the key-value store. */
  function EntryName(e: Entry): string {
    "dedupe:" + e.slug + ":" + e.digest8
  }

  /** Entries of slugs have names of their own, so the store may be read as keyed by entries. */
  lemma EntryNameInjective(campaign: string, d1: string, other: string, d2: string)
    requires EntryName(EntryFor(campaign, d1)) == EntryName(EntryFor(other, d2))
    ensures EntryFor(campaign, d1) == EntryFor(other, d2)
  {
    var a, b := Slug(campaign), Slug(other);
    SlugChars(campaign);
    SlugChars(other);
    var prefix := "dedupe:";
    var n1, n2 := EntryName(EntryFor(campaign, d1)), EntryName(EntryFor(other, d2));
    assert n1 == prefix + (a + [':'] + d1) && n2 == prefix + (b + [':'] + d2);
    assert a + [':'] + d1 == n1[|prefix|..] == n2[|prefix|..] == b + [':'] + d2;
    assert Free(a, ':') && Free(b, ':');
    SplitFirst(a, ':', d1);
    SplitFirst(b, ':', d2);
    assert a == ([a] + Split(d1, ':'))[0] == ([b] + Split(d2, ':'))[0] == b;
    assert d1 == (a + [':'] + d1)[|a| + 1..] == (b + [':'] + d2)[|b| + 1..] == d2;
  }

  // ---- one attachment

  /** Claim the digest's entry; the first claim uploads, a later one points at the first object,
      re-uploading it if a crash left it missing. */
  function Claim(v: Vault, campaign: string, jurisdiction: string, digest: string, filename: string): (Vault, Ref)
    requires IsDigest(digest)
  {
    var key := DocumentKey(campaign, jurisdiction, digest, filename);
    var entry := EntryFor(campaign, Digest8(digest));
    if entry !in v.index then
      (Vault(v.objects[key := digest], v.index[entry := key]), Stored(key))
    else
      var existing := v.index[entry];
      (if existing in v.objects then v else v.(objects := v.objects[existing := digest]), Duplicate(existing))
  }

  function StoreOne(v: Vault, campaign: string, jurisdiction: string, a: Attachment): (Vault, Ref)
    requires Digests(v)
  {
    if !a.accepted || a.spoolKey !in v.objects then (v, Rejected)
    else Claim(v, campaign, jurisdiction, v.objects[a.spoolKey], a.filename)
  }

  ghost function StoreAll(v: Vault, campaign: string, jurisdiction: string,
                          batch: seq<Attachment>): (r: (Vault, seq<Ref>))
    requires Digests(v)
    ensures Digests(r.0) && |r.1| == |batch|
  {
    if batch == [] then (v, [])
    else
      var n := |batch| - 1;
      var before := StoreAll(v, campaign, jurisdiction, batch[..n]);
      var (after, ref) := StoreOne(before.0, campaign, jurisdiction, batch[n]);
      (after, before.1 + [ref])
  }

  /** What storing one attachment does: a refused one, or one whose bytes are gone, does nothing; a digest prefix the
      campaign has an entry for is a duplicate of that entry's object, uploaded again if it is missing; a new one gets
      an object named by campaign, jurisdiction, prefix and file name, and an entry. */
  ghost predicate OneStored(v: Vault, v': Vault, campaign: string, jurisdiction: string, a: Attachment, ref: Ref) {
    if !a.accepted || a.spoolKey !in v.objects then v' == v && ref == Rejected
    else
      var digest := v.objects[a.spoolKey];
      |digest| >= 8 &&
      var entry := Entry(Slug(campaign), digest[..8]);
      var key := Slug(campaign) + "/" + Slug(jurisdiction) + "/" + digest[..8] + "_" + SanitizeFilename(a.filename);
      if entry in v.index then
        ref == Duplicate(v.index[entry]) && v'.index == v.index &&
        v'.objects == (if v.index[entry] in v.objects then v.objects else v.objects[v.index[entry] := digest])
      else
        ref == Stored(key) && v'.index == v.index[entry := key] && v'.objects == v.objects[key := digest]
  }

  lemma StoreOneStores(v: Vault, campaign: string, jurisdiction: string, a: Attachment)
    requires Digests(v)
    ensures OneStored(v, StoreOne(v, campaign, jurisdiction, a).0, campaign, jurisdiction, a,
      StoreOne(v, campaign, jurisdiction, a).1)
  {
  }

  // ---- the index as a reading of the listing

  /** The digest prefix in the key of a document of this campaign slug; spool objects and other keys have none. */
  function DocDigest(key: string, slug: string): Option<string> {
    var parts := Split(key, '/');
    if |parts| < 3 || parts[0] != slug || parts[1] == SPOOL then None
    else
      var digest8 := FirstPart(parts[|parts| - 1], '_');
      if |digest8| == DIGEST_PREFIX_LEN then Some(digest8) else None
  }

  /** Any key of three parts: its digest prefix, when the first part is the slug, the second not the spool directory,
      and the part before the underscore eight characters long. */
  lemma DigestOfKey(a: string, b: string, d: string, name: string, slug: string)
    requires Free(a, '/') && Free(b, '/') && Free(d, '/') && Free(d, '_') && Free(name, '/')
    ensures DocDigest(a + "/" + b + "/" + d + "_" + name, slug) ==
      if a == slug && b != "inbox-spool" && |d| == 8 then Some(d) else None
  {
    var c := d + ['_'] + name;
    var key := a + ['/'] + (b + ['/'] + c);
    assert a + "/" + b + "/" + d + "_" + name == key;
    SplitFirst(a, '/', b + ['/'] + c);
    SplitFirst(b, '/', c);
    assert Free(c, '/');
    SplitNone(c, '/');
    SplitFirst(d, '_', name);
    assert Split(key, '/') == [a, b, c];
  }

  ghost predicate HasDoc(objects: map<string, string>, slug: string, digest8: string) {
    exists key :: key in objects && DocDigest(key, slug) == Some(digest8)
  }

  /** The slug's entries are exactly the digest prefixes of its stored documents. */
  ghost predicate IndexExact(v: Vault, slug: string) {
    forall d8 :: Entry(slug, d8) in v.index <==> HasDoc(v.objects, slug, d8)
  }

  /** No crash stands between a claim and its upload. */
  ghost predicate Backed(v: Vault) {
    forall e :: e in v.index ==> v.index[e] in v.objects
  }

  lemma NewDoc(campaign: string, jurisdiction: string, digest: string, filename: string, slug: string)
    requires IsDigest(digest) && Slug(jurisdiction) != SPOOL
    ensures DocDigest(DocumentKey(campaign, jurisdiction, digest, filename), slug) ==
            if slug == Slug(campaign) then Some(Digest8(digest)) else None
  {
    DocumentKeyParts(campaign, jurisdiction, digest, filename);
  }

  /** Storing for any campaign keeps every slug's index exact. */
  lemma StoreKeepsExact(v: Vault, campaign: string, jurisdiction: string, a: Attachment, slug: string)
    requires Digests(v) && Backed(v) && IndexExact(v, slug) && Slug(jurisdiction) != SPOOL
    ensures var v' := StoreOne(v, campaign, jurisdiction, a).0; Backed(v') && IndexExact(v', slug)
  {
    var v' := StoreOne(v, campaign, jurisdiction, a).0;
    if v' != v {
      var digest := v.objects[a.spoolKey];
      var key := DocumentKey(campaign, jurisdiction, digest, a.filename);
      NewDoc(campaign, jurisdiction, digest, a.filename, slug);
      forall d8 ensures Entry(slug, d8) in v'.index <==> HasDoc(v'.objects, slug, d8) {
        if HasDoc(v.objects, slug, d8) {
          var k :| k in v.objects && DocDigest(k, slug) == Some(d8);
          assert k in v'.objects;
        }
        if DocDigest(key, slug) == Some(d8) { assert key in v'.objects; }
      }
    }
  }

  // ---- losing the cache and rebuilding it

  /** The entry names a listed document with its digest prefix. */
  ghost predicate FromListing(objects: map<string, string>, index: map<Entry, string>, slug: string, e: Entry) {
    e in index && index[e] in objects && e.slug == slug && DocDigest(index[e], slug) == Some(e.digest8)
  }

  /** What a rebuild that has read the keys in `seen` leaves: every entry that was there,
      and one for each digest prefix of a document it has read. */
  ghost predicate Rebuilt(v: Vault, index: map<Entry, string>, slug: string, seen: set<string>) {
    (forall e :: e in v.index ==> e in index && index[e] == v.index[e]) &&
    (forall e :: e in index && e !in v.index ==> FromListing(v.objects, index, slug, e)) &&
    (forall key :: key in seen && DocDigest(key, slug).Some? ==> Entry(slug, DocDigest(key, slug).value) in index)
  }

  ghost predicate IsRebuilt(v: Vault, v': Vault, slug: string) {
    v'.objects == v.objects && Rebuilt(v, v'.index, slug, v.objects.Keys)
  }

  /** One more key read: a document without an entry gets one. */
  function Reindex(index: map<Entry, string>, slug: string, key: string): map<Entry, string> {
    match DocDigest(key, slug)
    case None => index
    case Some(d8) => if Entry(slug, d8) in index then index else index[Entry(slug, d8) := key]
  }

  lemma ReindexStep(v: Vault, index: map<Entry, string>, slug: string, seen: set<string>, key: string)
    requires Rebuilt(v, index, slug, seen) && key in v.objects
    ensures Rebuilt(v, Reindex(index, slug, key), slug, seen + {key})
  {
    var index' := Reindex(index, slug, key);
    forall e | e in index' && e !in v.index ensures FromListing(v.objects, index', slug, e) {
      if e in index { assert FromListing(v.objects, index, slug, e); }
    }
  }

  /** A rebuild after a full loss gives an exact, backed index whatever was stored before. */
  lemma RebuildIsExact(v: Vault, v': Vault, slug: string)
    requires IsRebuilt(v.(index := map[]), v', slug)
    ensures IndexExact(v', slug) && Backed(v')
  {
    forall e | e in v'.index ensures FromListing(v.objects, v'.index, slug, e) { }
    forall d8 | Entry(slug, d8) in v'.index ensures HasDoc(v'.objects, slug, d8) {
      assert FromListing(v.objects, v'.index, slug, Entry(slug, d8));
    }
  }

  predicate SameVerdict(a: Ref, b: Ref) {
    (a.Rejected? && b.Rejected?) || (a.Stored? && b.Stored? && a.key == b.key) || (a.Duplicate? && b.Duplicate?)
  }

  /** The two vaults hold the same objects and have claimed the same digests for the slug. */
  ghost predicate Agree(v: Vault, u: Vault, slug: string) {
    v.objects == u.objects && Backed(v) && Backed(u) && Digests(v) &&
    forall d8 :: Entry(slug, d8) in v.index <==> Entry(slug, d8) in u.index
  }

  lemma AgreeStep(v: Vault, u: Vault, campaign: string, jurisdiction: string, a: Attachment)
    requires Agree(v, u, Slug(campaign))
    ensures SameVerdict(StoreOne(v, campaign, jurisdiction, a).1, StoreOne(u, campaign, jurisdiction, a).1)
    ensures Agree(StoreOne(v, campaign, jurisdiction, a).0, StoreOne(u, campaign, jurisdiction, a).0, Slug(campaign))
  {
  }

  lemma {:induction false} AgreeAll(v: Vault, u: Vault, campaign: string, jurisdiction: string, batch: seq<Attachment>)
    requires Agree(v, u, Slug(campaign))
    ensures
      var (v', refs) := StoreAll(v, campaign, jurisdiction, batch);
      var (u', refs') := StoreAll(u, campaign, jurisdiction, batch);
      Agree(v', u', Slug(campaign)) && forall i :: 0 <= i < |batch| ==> SameVerdict(refs[i], refs'[i])
    decreases |batch|
  {
    if batch != [] {
      var n := |batch| - 1;
      AgreeAll(v, u, campaign, jurisdiction, batch[..n]);
      AgreeStep(StoreAll(v, campaign, jurisdiction, batch[..n]).0, StoreAll(u, campaign, jurisdiction, batch[..n]).0,
                campaign, jurisdiction, batch[n]);
    }
  }

  /** After a full cache loss and a rebuild, every later attachment of the campaign gets the verdict the lost
      index would have given, in the same place when it is stored. */
  lemma RebuildKeepsVerdicts(v: Vault, v': Vault, campaign: string, jurisdiction: string, batch: seq<Attachment>)
    requires Digests(v) && Backed(v) && IndexExact(v, Slug(campaign))
    requires IsRebuilt(v.(index := map[]), v', Slug(campaign))
    ensures
      Digests(v') &&
      var lost := StoreAll(v, campaign, jurisdiction, batch).1;
      var rebuilt := StoreAll(v', campaign, jurisdiction, batch).1;
      forall i :: 0 <= i < |batch| ==> SameVerdict(lost[i], rebuilt[i])
  {
    RebuildIsExact(v, v', Slug(campaign));
    AgreeAll(v, v', campaign, jurisdiction, batch);
  }

  /** Any vault, exact or not: the rebuilt verdict on a digest is the lost one exactly when the lost entry
      stood for a document outside the spool directory. */
  lemma WhenAVerdictSurvives(v: Vault, v': Vault, campaign: string, jurisdiction: string, digest: string,
                             filename: string)
    requires IsDigest(digest) && IsRebuilt(v.(index := map[]), v', Slug(campaign))
    ensures
      (Claim(v, campaign, jurisdiction, digest, filename).1.Stored? <==>
        Claim(v', campaign, jurisdiction, digest, filename).1.Stored?) <==>
      (EntryFor(campaign, Digest8(digest)) in v.index <==> HasDoc(v.objects, Slug(campaign), Digest8(digest)))
  {
    RebuildIsExact(v, v', Slug(campaign));
  }

  /** A jurisdiction whose slug is the spool directory: its document is skipped by the rebuild,
      and the next copy is stored again instead of recognised. */
  lemma SpoolNamedJurisdictionIsForgotten(v': Vault, digest: string)
    requires IsDigest(digest)
    ensures
      var v := Claim(Vault(map[], map[]), "c", "inbox spool", digest, "f").0;
      IsRebuilt(v.(index := map[]), v', Slug("c")) ==>
        Claim(v, "c", "j", digest, "f").1.Duplicate? && Claim(v', "c", "j", digest, "f").1.Stored?
  {
    var v := Claim(Vault(map[], map[]), "c", "inbox spool", digest, "f").0;
    var key := DocumentKey("c", "inbox spool", digest, "f");
    DocumentKeyParts("c", "inbox spool", digest, "f");
    SpoolSlug();
    if IsRebuilt(v.(index := map[]), v', Slug("c")) {
      RebuildIsExact(v, v', Slug("c"));
      forall d8 ensures !HasDoc(v.objects, Slug("c"), d8) { assert v.objects.Keys == {key}; }
    }
  }

  lemma SpoolSlug()
    ensures Slug("inbox spool") == SPOOL
  {
    SlugLaws.TwoWords("inbox", " ", "spool");
    assert "inbox" + (" " + "spool") == "inbox spool" && "inbox" + "-" + "spool" == SPOOL;
  }

  // ---- the store itself

  class AttachmentStore {
    var objects: map<string, string>
    var index: map<Entry, string>

    ghost function Snapshot(): Vault reads this { Vault(objects, index) }

    method StoreAttachments(campaign: string, jurisdiction: string, batch: seq<Attachment>)
      returns (refs: seq<Ref>, stored: nat)
      requires Digests(Snapshot())
      modifies this
      ensures (Snapshot(), refs) == StoreAll(old(Snapshot()), campaign, jurisdiction, batch)
      ensures stored == |set i | 0 <= i < |refs| && refs[i].Stored?|
    {
      refs, stored := [], 0;
      ghost var storedAt: set<int> := {};
      for i := 0 to |batch|
        invariant (Snapshot(), refs) == StoreAll(old(Snapshot()), campaign, jurisdiction, batch[..i])
        invariant storedAt == (set j | 0 <= j < |refs| && refs[j].Stored?) && stored == |storedAt|
      {
        assert batch[..i + 1][..i] == batch[..i];
        var ref := StoreAttachment(campaign, jurisdiction, batch[i]);
        refs := refs + [ref];
        if ref.Stored? {
          storedAt := storedAt + {i};
          stored := stored + 1;
        }
      }
      assert batch[..|batch|] == batch;
    }

    /** The body of the loop above: one attachment is refused, found in the index, or stored. */
    method StoreAttachment(campaign: string, jurisdiction: string, a: Attachment) returns (ref: Ref)
      requires Digests(Snapshot())
      modifies this
      ensures (Snapshot(), ref) == StoreOne(old(Snapshot()), campaign, jurisdiction, a)
      ensures OneStored(old(Snapshot()), Snapshot(), campaign, jurisdiction, a, ref)
    {
      StoreOneStores(Snapshot(), campaign, jurisdiction, a);
      if !a.accepted || a.spoolKey !in objects { return Rejected; }
      var digest := objects[a.spoolKey];
      var key := DocumentKey(campaign, jurisdiction, digest, a.filename);
      var entry := EntryFor(campaign, Digest8(digest));
      if entry in index {
        var existing := index[entry];
        if existing !in objects {
          objects := objects[existing := digest];
        }
        ref := Duplicate(existing);
      } else {
        index := index[entry := key];
        objects := objects[key := digest];
        ref := Stored(key);
      }
    }

    /** Reads the keys under the campaign's prefix, in whatever order they are listed. */
    method RebuildDedupe(campaign: string) returns (written: nat)
      modifies this`index
      ensures IsRebuilt(old(Snapshot()), Snapshot(), Slug(campaign))
      ensures |index| == |old(index)| + written
    {
      written := 0;
      var slug := Slug(campaign);
      var left := objects.Keys;
      while left != {}
        invariant left <= objects.Keys
        invariant Rebuilt(old(Snapshot()), index, slug, objects.Keys - left)
        invariant |index| == |old(index)| + written
        decreases |left|
      {
        var key :| key in left;
        ReindexStep(old(Snapshot()), index, slug, objects.Keys - left, key);
        assert objects.Keys - (left - {key}) == (objects.Keys - left) + {key};
        var digest8 := DocDigest(key, slug);
        if digest8.Some? && Entry(slug, digest8.value) !in index {
          index := index[Entry(slug, digest8.value) := key];
          written := written + 1;
        }
        left := left - {key};
      }
      assert objects.Keys - left == objects.Keys;
    }
  }
}
