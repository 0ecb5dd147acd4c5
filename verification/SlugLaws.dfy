/** What a slug and a sanitized file name are: the kept characters, with one filler for each gap between them. */
module SlugLaws {
  import opened StorageKeys

  ghost predicate All(s: string, p: char -> bool) { forall i :: 0 <= i < |s| ==> p(s[i]) }
  ghost predicate None(s: string, p: char -> bool) { forall i :: 0 <= i < |s| ==> !p(s[i]) }

  // ---- collapsing

  lemma {:induction false} Kept(a: string, rest: string, keep: char -> bool, fill: char, inRun: bool)
    requires a != "" && All(a, keep)
    ensures Collapse(a + rest, keep, fill, inRun) == a + Collapse(rest, keep, fill, false)
    decreases |a|
  {
    assert (a + rest)[1..] == a[1..] + rest && (a + rest)[0] == a[0];
    if |a| == 1 {
      assert a[1..] + rest == rest && a == [a[0]];
    } else {
      Kept(a[1..], rest, keep, fill, false);
      assert [a[0]] + (a[1..] + Collapse(rest, keep, fill, false)) == a + Collapse(rest, keep, fill, false);
    }
  }

  lemma {:induction false} Filled(gap: string, rest: string, keep: char -> bool, fill: char, inRun: bool)
    requires gap != "" && None(gap, keep)
    ensures Collapse(gap + rest, keep, fill, inRun) ==
      (if inRun then "" else [fill]) + Collapse(rest, keep, fill, true)
    decreases |gap|
  {
    assert (gap + rest)[1..] == gap[1..] + rest && (gap + rest)[0] == gap[0];
    if |gap| == 1 {
      assert gap[1..] + rest == rest;
    } else {
      Filled(gap[1..], rest, keep, fill, true);
    }
  }

  lemma KeptWhole(a: string, keep: char -> bool, fill: char, inRun: bool)
    requires All(a, keep)
    ensures Collapse(a, keep, fill, inRun) == a
  {
    if a != "" {
      Kept(a, "", keep, fill, inRun);
      assert a + "" == a;
    }
  }

  // ---- slugs: the words of a name joined by single dashes

  /** Lower-case letters and digits. */
  ghost predicate Word(s: string) { forall i :: 0 <= i < |s| ==> 'a' <= s[i] <= 'z' || '0' <= s[i] <= '9' }

  /** Anything else. */
  ghost predicate Gap(s: string) { forall i :: 0 <= i < |s| ==> !('a' <= s[i] <= 'z' || '0' <= s[i] <= '9') }

  /** The rest of a name, from a word on. */
  ghost predicate FromWord(s: string) { s != "" && Word(s[..1]) }

  function Uncut(lowered: string): string {
    StripRight(StripLeft(Collapse(lowered, IsWord, '-', false), IsDash), IsDash)
  }

  lemma SlugIsCut(lowered: string)
    ensures Slug(lowered) == if |Uncut(lowered)| <= 60 then Uncut(lowered) else Uncut(lowered)[..60]
  {
  }

  /** A word, as text before anything else: the rest joins it with one dash. */
  lemma WordThenMore(word: string, gap: string, rest: string)
    requires word != "" && Word(word) && gap != "" && Gap(gap)
    requires FromWord(rest)
    ensures Uncut(word + (gap + rest)) == word + "-" + Uncut(rest)
  {
    var more := Collapse(rest, IsWord, '-', true);
    Kept(word, gap + rest, IsWord, '-', false);
    Filled(gap, rest, IsWord, '-', false);
    SameAfterWord(rest);
    assert Collapse(word + (gap + rest), IsWord, '-', false) == word + (['-'] + more);
    assert StripLeft(word + (['-'] + more), IsDash) == word + (['-'] + more);
    assert StripLeft(more, IsDash) == more;
    StripKeepsPrefix(word + ['-'], more);
    assert word + (['-'] + more) == word + ['-'] + more;
  }

  lemma SameAfterWord(rest: string)
    requires FromWord(rest)
    ensures Collapse(rest, IsWord, '-', true) == Collapse(rest, IsWord, '-', false)
    ensures Collapse(rest, IsWord, '-', false) != "" && Collapse(rest, IsWord, '-', false)[0] == rest[0]
  {
  }

  /** Stripping the end of a text stops at the first character it keeps. */
  lemma {:induction false} StripKeepsPrefix(a: string, b: string)
    requires b != "" && !IsDash(b[0])
    ensures StripRight(a + b, IsDash) == a + StripRight(b, IsDash)
    decreases |b|
  {
    assert (a + b)[|a + b| - 1] == b[|b| - 1];
    if IsDash(b[|b| - 1]) {
      assert (a + b)[..|a + b| - 1] == a + b[..|b| - 1];
      StripKeepsPrefix(a, b[..|b| - 1]);
    }
  }

  /** A lone word is its own slug, whatever surrounds it that is no word. */
  lemma LoneWord(before: string, word: string, behind: string)
    requires word != "" && Word(word) && Gap(before) && Gap(behind)
    ensures Uncut(before + (word + behind)) == word
  {
    GapFirst(before, word + behind);
    Kept(word, behind, IsWord, '-', false);
    if behind == "" {
      assert word + "" == word;
      WordStands(word, "");
    } else {
      Filled(behind, "", IsWord, '-', false);
      assert behind + "" == behind;
      WordStands(word, "-");
    }
  }

  lemma WordStands(word: string, tail: string)
    requires word != "" && Word(word) && (tail == "" || tail == "-")
    ensures StripRight(StripLeft(word + tail, IsDash), IsDash) == word
  {
    assert StripLeft(word + tail, IsDash) == word + tail;
    if tail == "" {
      assert word + "" == word;
    } else {
      assert (word + tail)[..|word|] == word;
    }
    assert StripRight(word, IsDash) == word;
  }

  /** What stands before the first word leaves no trace. */
  lemma GapFirst(gap: string, rest: string)
    requires Gap(gap) && FromWord(rest)
    ensures Uncut(gap + rest) == Uncut(rest)
  {
    if gap == "" {
      assert gap + rest == rest;
    } else {
      Filled(gap, rest, IsWord, '-', false);
      SameAfterWord(rest);
      var c := Collapse(rest, IsWord, '-', false);
      assert ['-'] + c == "-" + c && ("-" + c)[1..] == c;
      assert StripLeft("-" + c, IsDash) == StripLeft(c, IsDash);
    }
  }

  /** A name without a word has no slug. */
  lemma NoWord(gap: string)
    requires Gap(gap)
    ensures Uncut(gap) == ""
  {
    if gap != "" {
      Filled(gap, "", IsWord, '-', false);
      assert gap + "" == gap;
      assert "-"[1..] == "" && StripLeft("-", IsDash) == StripLeft("", IsDash) == "";
    }
  }

  lemma TwoWords(a: string, gap: string, b: string)
    requires a != "" && Word(a) && gap != "" && Gap(gap) && b != "" && Word(b)
    requires |a| + 1 + |b| <= 60
    ensures Slug(a + (gap + b)) == a + "-" + b
  {
    WordThenMore(a, gap, b);
    LoneWord("", b, "");
    assert "" + (b + "") == b;
    SlugIsCut(a + (gap + b));
  }

  // ---- file names

  /** Letters, digits, dots, underscores and dashes. */
  ghost predicate Safe(s: string) {
    forall i :: 0 <= i < |s| ==> 'a' <= s[i] <= 'z' || 'A' <= s[i] <= 'Z' || '0' <= s[i] <= '9' || s[i] in "._-"
  }

  ghost predicate Unsafe(s: string) {
    forall i :: 0 <= i < |s| ==>
      !('a' <= s[i] <= 'z' || 'A' <= s[i] <= 'Z' || '0' <= s[i] <= '9') && s[i] !in "._-"
  }

  /** Neither starts nor ends with a dot, an underscore or a dash. */
  ghost predicate CleanStart(s: string) { s != "" && s[0] !in "._-" }
  ghost predicate CleanEnd(s: string) { s != "" && s[|s| - 1] !in "._-" }

  /** A name of safe characters that neither starts nor ends with a separator stays. */
  lemma SafeNameStays(name: string)
    requires Safe(name) && CleanStart(name) && CleanEnd(name)
    ensures SanitizeFilename(name) == name
  {
    KeptWhole(name, IsSafe, '_', false);
  }

  /** A gap inside it becomes one underscore. */
  lemma GapInName(a: string, gap: string, b: string)
    requires Safe(a) && CleanStart(a) && Safe(b) && CleanEnd(b)
    requires gap != "" && Unsafe(gap)
    ensures SanitizeFilename(a + (gap + b)) == a + "_" + b
  {
    Kept(a, gap + b, IsSafe, '_', false);
    Filled(gap, b, IsSafe, '_', false);
    KeptWhole(b, IsSafe, '_', true);
    var name := a + (['_'] + b);
    assert Collapse(a + (gap + b), IsSafe, '_', false) == name;
    assert name[0] == a[0] && name[|name| - 1] == b[|b| - 1];
    CleanStays(name);
    Sanitized(a + (gap + b), name);
    assert name == a + "_" + b;
  }

  lemma CleanStays(name: string)
    requires CleanStart(name) && CleanEnd(name)
    ensures StripRight(StripLeft(name, IsEdge), IsEdge) == name
  {
  }

  lemma Sanitized(filename: string, name: string)
    requires Collapse(filename, IsSafe, '_', false) == name && name != ""
    requires StripRight(StripLeft(name, IsEdge), IsEdge) == name
    ensures SanitizeFilename(filename) == name
  {
  }

  /** A name with nothing safe in it gets a name. */
  lemma NothingSafe(gap: string)
    requires Unsafe(gap)
    ensures SanitizeFilename(gap) == "attachment"
  {
    if gap != "" {
      Filled(gap, "", IsSafe, '_', false);
      assert gap + "" == gap;
      assert "_"[1..] == "" && StripLeft("_", IsEdge) == StripLeft("", IsEdge) == "";
    }
  }
}
