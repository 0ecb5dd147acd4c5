/** Object-storage keys: `campaign-slug/jurisdiction-slug/digest8_filename`, and reading them back. */
module StorageKeys {
  const SLUG_LEN := 60
  const DIGEST_PREFIX_LEN := 8
  const SPOOL := "inbox-spool"

  predicate IsLower(c: char) { 'a' <= c <= 'z' }
  predicate IsUpper(c: char) { 'A' <= c <= 'Z' }
  predicate IsDigit(c: char) { '0' <= c <= '9' }
  predicate IsHex(c: char) { IsDigit(c) || 'a' <= c <= 'f' }
  predicate IsSlugChar(c: char) { IsLower(c) || IsDigit(c) || c == '-' }
  predicate IsSafe(c: char) { IsLower(c) || IsUpper(c) || IsDigit(c) || c == '.' || c == '_' || c == '-' }

  predicate IsWord(c: char) { IsLower(c) || IsDigit(c) }
  predicate IsDash(c: char) { c == '-' }
  predicate IsEdge(c: char) { c == '.' || c == '_' || c == '-' }

  /** A sha256 in hex. */
  predicate IsDigest(d: string) {
    |d| == 64 && forall i :: 0 <= i < |d| ==> IsHex(d[i])
  }

  function Digest8(d: string): string
    requires IsDigest(d)
  {
    d[..DIGEST_PREFIX_LEN]
  }

  // ---- slugs and file names

  /** Every run of other characters becomes one `fill`; `inRun` says the last character was one. */
  function Collapse(s: string, keep: char -> bool, fill: char, inRun: bool): string {
    if s == "" then ""
    else if keep(s[0]) then [s[0]] + Collapse(s[1..], keep, fill, false)
    else (if inRun then "" else [fill]) + Collapse(s[1..], keep, fill, true)
  }

  function StripLeft(s: string, drop: char -> bool): string {
    if s != "" && drop(s[0]) then StripLeft(s[1..], drop) else s
  }

  function StripRight(s: string, drop: char -> bool): string {
    if s != "" && drop(s[|s| - 1]) then StripRight(s[..|s| - 1], drop) else s
  }

  function Cut(s: string, n: nat): string { if |s| <= n then s else s[..n] }

  /** The slug of a name already in lower case. */
  function Slug(lowered: string): string {
    Cut(StripRight(StripLeft(Collapse(lowered, IsWord, '-', false), IsDash), IsDash), SLUG_LEN)
  }

  function SanitizeFilename(filename: string): string {
    var cleaned := StripRight(StripLeft(Collapse(filename, IsSafe, '_', false), IsEdge), IsEdge);
    if cleaned == "" then "attachment" else cleaned
  }

  function ObjectKey(owner: string, jurisdiction: string, digest: string, filename: string): string
    requires IsDigest(digest)
  {
    Slug(owner) + "/" + Slug(jurisdiction) + "/" + Digest8(digest) + "_" + filename
  }

  function DocumentKey(campaign: string, jurisdiction: string, digest: string, filename: string): string
    requires IsDigest(digest)
  {
    ObjectKey(campaign, jurisdiction, digest, SanitizeFilename(filename))
  }

  // ---- reading keys

  predicate Free(s: string, c: char) { forall i :: 0 <= i < |s| ==> s[i] != c }

  /** `s.split(sep)`: the pieces between separators, at least one. */
  function Split(s: string, sep: char): (parts: seq<string>)
    ensures |parts| >= 1
  {
    if s == "" then [""]
    else if s[0] == sep then [""] + Split(s[1..], sep)
    else var rest := Split(s[1..], sep); [[s[0]] + rest[0]] + rest[1..]
  }

  /** What stands before the first separator, or everything. */
  function FirstPart(s: string, sep: char): string {
    Split(s, sep)[0]
  }

  lemma {:induction false} SplitFirst(a: string, sep: char, b: string)
    requires Free(a, sep)
    ensures Split(a + [sep] + b, sep) == [a] + Split(b, sep)
  {
    if a == "" {
      assert a + [sep] + b == [sep] + b;
      assert ([sep] + b)[1..] == b;
    } else {
      SplitFirst(a[1..], sep, b);
      var whole := a + [sep] + b;
      assert whole[1..] == a[1..] + [sep] + b && whole[0] == a[0];
      assert [a[0]] + a[1..] == a;
    }
  }

  lemma {:induction false} SplitNone(a: string, sep: char)
    requires Free(a, sep)
    ensures Split(a, sep) == [a]
  {
    if a != "" {
      SplitNone(a[1..], sep);
      assert [a[0]] + a[1..] == a;
    }
  }

  // ---- what slugs and file names are made of

  lemma {:induction false} CollapseChars(s: string, keep: char -> bool, fill: char, inRun: bool)
    ensures forall i :: 0 <= i < |Collapse(s, keep, fill, inRun)| ==>
              keep(Collapse(s, keep, fill, inRun)[i]) || Collapse(s, keep, fill, inRun)[i] == fill
  {
    if s != "" {
      CollapseChars(s[1..], keep, fill, !keep(s[0]));
    }
  }

  lemma {:induction false} StripLeftSuffix(s: string, drop: char -> bool)
    ensures |StripLeft(s, drop)| <= |s| && StripLeft(s, drop) == s[|s| - |StripLeft(s, drop)|..]
  {
    if s != "" && drop(s[0]) { StripLeftSuffix(s[1..], drop); }
  }

  lemma {:induction false} StripRightPrefix(s: string, drop: char -> bool)
    ensures |StripRight(s, drop)| <= |s| && StripRight(s, drop) == s[..|StripRight(s, drop)|]
  {
    if s != "" && drop(s[|s| - 1]) { StripRightPrefix(s[..|s| - 1], drop); }
  }

  lemma StripChars(s: string, drop: char -> bool)
    ensures forall i :: 0 <= i < |StripRight(StripLeft(s, drop), drop)| ==> StripRight(StripLeft(s, drop), drop)[i] in s
  {
    StripLeftSuffix(s, drop);
    StripRightPrefix(StripLeft(s, drop), drop);
  }

  lemma SlugChars(lowered: string)
    ensures |Slug(lowered)| <= 60 && forall i :: 0 <= i < |Slug(lowered)| ==> IsSlugChar(Slug(lowered)[i])
  {
    var collapsed := Collapse(lowered, IsWord, '-', false);
    CollapseChars(lowered, IsWord, '-', false);
    StripChars(collapsed, IsDash);
    assert forall c :: c in collapsed ==> IsSlugChar(c);
  }

  lemma FilenameChars(filename: string)
    ensures |SanitizeFilename(filename)| >= 1
    ensures forall i :: 0 <= i < |SanitizeFilename(filename)| ==> IsSafe(SanitizeFilename(filename)[i])
  {
    var collapsed := Collapse(filename, IsSafe, '_', false);
    CollapseChars(filename, IsSafe, '_', false);
    StripChars(collapsed, IsEdge);
    assert forall c :: c in collapsed ==> IsSafe(c);
  }

  /** Any object key splits into its slugs, and its last part gives back the digest prefix. */
  lemma KeyParts(owner: string, jurisdiction: string, digest: string, filename: string)
    requires IsDigest(digest) && Free(filename, '/')
    ensures var parts := Split(ObjectKey(owner, jurisdiction, digest, filename), '/');
            |parts| == 3 && parts[0] == Slug(owner) && parts[1] == Slug(jurisdiction) &&
            parts[2] == Digest8(digest) + "_" + filename && FirstPart(parts[2], '_') == Digest8(digest)
  {
    var a, b, c := Slug(owner), Slug(jurisdiction), Digest8(digest) + "_" + filename;
    SlugChars(owner);
    SlugChars(jurisdiction);
    assert ObjectKey(owner, jurisdiction, digest, filename) == a + ['/'] + (b + ['/'] + c);
    SplitFirst(a, '/', b + ['/'] + c);
    SplitFirst(b, '/', c);
    assert Free(c, '/');
    SplitNone(c, '/');
    assert c == Digest8(digest) + ['_'] + filename;
    SplitFirst(Digest8(digest), '_', filename);
  }

  /** Two objects at one key have the same digest prefix. */
  lemma SameKeySamePrefix(o1: string, j1: string, d1: string, f1: string, o2: string, j2: string, d2: string,
                          f2: string)
    requires IsDigest(d1) && IsDigest(d2) && Free(f1, '/') && Free(f2, '/')
    requires ObjectKey(o1, j1, d1, f1) == ObjectKey(o2, j2, d2, f2)
    ensures Digest8(d1) == Digest8(d2)
  {
    KeyParts(o1, j1, d1, f1);
    KeyParts(o2, j2, d2, f2);
  }

  /** Reading `digest8` back out of any document key. */
  lemma DocumentKeyParts(campaign: string, jurisdiction: string, digest: string, filename: string)
    requires IsDigest(digest)
    ensures var parts := Split(DocumentKey(campaign, jurisdiction, digest, filename), '/');
            |parts| == 3 && parts[0] == Slug(campaign) && parts[1] == Slug(jurisdiction) &&
            FirstPart(parts[2], '_') == digest[..8]
  {
    FilenameChars(filename);
    KeyParts(campaign, jurisdiction, digest, SanitizeFilename(filename));
  }
}
