/** Reading the largest dollar amount out of a message body. */
module Amounts {
  import opened Options

  const CENTS_LIMIT := 100_000_000

  predicate IsDigit(c: char) { '0' <= c <= '9' }

  /** The characters a regular expression's whitespace class matches. */
  predicate IsSpace(c: char) {
    '\U{9}' <= c <= '\U{D}' || '\U{1C}' <= c <= '\U{20}' || c == '\U{85}' || c == '\U{A0}' || c == '\U{1680}' ||
    '\U{2000}' <= c <= '\U{200A}' || c == '\U{2028}' || c == '\U{2029}' || c == '\U{202F}' || c == '\U{205F}' ||
    c == '\U{3000}'
  }

  predicate IsAmountChar(c: char) { IsDigit(c) || c == ',' }

  // ---- the expression as a language: `$`, spaces, 1 to 8 digits or commas starting with a digit, optional cents

  /** `s[i..e]` matches with the dollars at `s[a..b]`, and the cents at `s[b+1..e]` when `e > b`. */
  ghost predicate IsMatch(s: string, i: int, a: int, b: int, e: int) {
    0 <= i < a < b <= e <= |s| && s[i] == '$' &&
    (forall x :: i < x < a ==> IsSpace(s[x])) &&
    b <= a + 8 && IsDigit(s[a]) && (forall x :: a < x < b ==> IsAmountChar(s[x])) &&
    (e == b || (b + 2 <= e <= b + 3 && s[b] == '.' && forall x :: b < x < e ==> IsDigit(s[x])))
  }

  // ---- the greedy match

  function SkipSpaces(s: string, i: nat): (r: nat)
    requires i <= |s|
    ensures i <= r <= |s|
    ensures forall x :: i <= x < r ==> IsSpace(s[x])
    ensures r < |s| ==> !IsSpace(s[r])
    decreases |s| - i
  {
    if i < |s| && IsSpace(s[i]) then SkipSpaces(s, i + 1) else i
  }

  function TakeAmount(s: string, i: nat, limit: nat): (r: nat)
    requires i <= |s|
    ensures i <= r <= |s| && r <= i + limit
    ensures forall x :: i <= x < r ==> IsAmountChar(s[x])
    ensures r < |s| && r < i + limit ==> !IsAmountChar(s[r])
    decreases limit
  {
    if i < |s| && limit > 0 && IsAmountChar(s[i]) then TakeAmount(s, i + 1, limit - 1) else i
  }

  function CentsEnd(s: string, b: nat): nat
    requires b <= |s|
  {
    if b + 1 < |s| && s[b] == '.' && IsDigit(s[b + 1]) then
      if b + 2 < |s| && IsDigit(s[b + 2]) then b + 3 else b + 2
    else b
  }

  /** The dollars are `text[start..stop]`; the match ends at `end`. */
  datatype Match = Match(start: nat, stop: nat, end: nat, dollars: string, cents: string)

  function MatchAt(s: string, i: nat): (m: Option<Match>)
    requires i < |s|
    ensures m.Some? ==> i < m.value.end <= |s|
  {
    if s[i] != '$' then None
    else
      var a := SkipSpaces(s, i + 1);
      if a == |s| || !IsDigit(s[a]) then None
      else
        var b := TakeAmount(s, a + 1, 7);
        var e := CentsEnd(s, b);
        Some(Match(a, b, e, s[a..b], if e == b then "" else s[b + 1..e]))
  }

  /** The scan finds a match wherever the expression has one, and it is the greedy one:
      the only start of the dollars, their longest run, then the longest cents. */
  lemma MatchIsGreedy(s: string, i: int, a: int, b: int, e: int)
    requires IsMatch(s, i, a, b, e)
    ensures MatchAt(s, i).Some?
    ensures var m := MatchAt(s, i).value; m.start == a && b <= m.stop && (b == m.stop ==> e <= m.end)
  {
    assert !IsSpace(s[a]);
    assert SkipSpaces(s, i + 1) == a;
  }

  /** What the scan finds is a match of the expression, with its groups read off the text. */
  lemma MatchIsMatch(s: string, i: nat)
    requires i < |s| && MatchAt(s, i).Some?
    ensures var m := MatchAt(s, i).value;
            IsMatch(s, i, m.start, m.stop, m.end) && m.dollars == s[m.start..m.stop] &&
            m.cents == if m.end == m.stop then "" else s[m.stop + 1..m.end]
  {
  }

  /** All matches, leftmost first, each search resuming where the last match ended. */
  function Matches(s: string, i: nat): seq<Match>
    requires i <= |s|
    decreases |s| - i
  {
    if i == |s| then []
    else
      match MatchAt(s, i)
      case None => Matches(s, i + 1)
      case Some(m) => [m] + Matches(s, m.end)
  }

  function DropCommas(s: string): string {
    if s == "" then "" else (if s[0] == ',' then "" else [s[0]]) + DropCommas(s[1..])
  }

  /** The decimal value of a digit string; other characters are not given to it. */
  function Value(s: string): nat {
    if s == "" then 0 else Value(s[..|s| - 1]) * 10 + (if IsDigit(s[|s| - 1]) then
      s[|s| - 1] as int - '0' as int else 0)
  }

  function CentsOf(cents: string): nat {
    if |cents| == 0 then 0 else if |cents| == 1 then Value(cents) * 10 else Value(cents)
  }

  /** The amount a match stands for, unless it has more than six dollar digits. */
  function AmountOf(m: Match): Option<nat> {
    var dollars := DropCommas(m.dollars);
    if |dollars| > 6 then None else Some(Value(dollars) * 100 + CentsOf(m.cents))
  }

  /** `best` is the largest amount among the matches, if any has one. */
  ghost predicate IsLargest(ms: seq<Match>, best: Option<nat>) {
    (best.None? <==> forall m :: m in ms ==> AmountOf(m).None?) &&
    (best.Some? ==>
      (exists m :: m in ms && AmountOf(m) == best) &&
      forall m :: m in ms && AmountOf(m).Some? ==> AmountOf(m).value <= best.value)
  }

  function Better(best: Option<nat>, m: Match): Option<nat> {
    match AmountOf(m)
    case None => best
    case Some(x) => if best.None? || x > best.value then Some(x) else best
  }

  /** The largest amount in the text. */
  function Largest(s: string): Option<nat> {
    Fold(None, Matches(s, 0))
  }

  function Fold(best: Option<nat>, ms: seq<Match>): Option<nat>
    decreases |ms|
  {
    if ms == [] then best else Fold(Better(best, ms[0]), ms[1..])
  }

  lemma OneMore(seen: seq<Match>, best: Option<nat>, m: Match)
    requires IsLargest(seen, best)
    ensures IsLargest(seen + [m], Better(best, m))
  {
    var all, next := seen + [m], Better(best, m);
    forall x ensures x in all <==> x in seen || x == m { }
    if next == best && best.Some? {
      var x :| x in seen && AmountOf(x) == best;
      assert x in all;
    } else if next.Some? {
      assert m in all;
    }
  }

  lemma MoveOne(seen: seq<Match>, ms: seq<Match>)
    requires ms != []
    ensures seen + [ms[0]] + ms[1..] == seen + ms
  {
    assert [ms[0]] + ms[1..] == ms;
    assert seen + [ms[0]] + ms[1..] == seen + ([ms[0]] + ms[1..]);
  }

  lemma {:induction false} FoldIsLargest(seen: seq<Match>, best: Option<nat>, ms: seq<Match>)
    requires IsLargest(seen, best)
    ensures IsLargest(seen + ms, Fold(best, ms))
    decreases |ms|
  {
    if ms == [] {
      assert seen + ms == seen;
    } else {
      OneMore(seen, best, ms[0]);
      FoldIsLargest(seen + [ms[0]], Better(best, ms[0]), ms[1..]);
      MoveOne(seen, ms);
    }
  }

  // ---- the same over the text

  /** A match of the expression no other match at its dollar sign is longer than: first its dollars, then its cents. */
  ghost predicate IsGreedy(s: string, i: int, a: int, b: int, e: int) {
    IsMatch(s, i, a, b, e) &&
    forall a', b', e' :: IsMatch(s, i, a', b', e') ==> b' <= b && (b' == b ==> e' <= e)
  }

  function DigitValue(c: char): int { c as int - '0' as int }

  /** The amount of a match: at most six dollar digits; one digit of cents counts tens. */
  ghost function AmountIn(s: string, a: int, b: int, e: int): Option<int>
    requires 0 <= a < b <= e <= |s|
  {
    var dollars := DropCommas(s[a..b]);
    if |dollars| > 6 then None
    else if e == b + 2 then Some(Value(dollars) * 100 + 10 * DigitValue(s[b + 1]))
    else if e == b + 3 then Some(Value(dollars) * 100 + 10 * DigitValue(s[b + 1]) + DigitValue(s[b + 2]))
    else Some(Value(dollars) * 100)
  }

  /** Some dollar sign of the text starts a greedy match that stands for `x`. */
  ghost predicate Names(s: string, x: int) {
    exists i, a, b, e :: IsGreedy(s, i, a, b, e) && AmountIn(s, a, b, e) == Some(x)
  }

  /** `best` is the largest amount the text names. */
  ghost predicate IsLargestIn(s: string, best: Option<nat>) {
    match best
    case None => forall x :: !Names(s, x)
    case Some(v) => Names(s, v) && forall x :: Names(s, x) ==> x <= v
  }

  lemma ScanIsGreedy(s: string, i: nat)
    requires i < |s| && MatchAt(s, i).Some?
    ensures var m := MatchAt(s, i).value;
      IsGreedy(s, i, m.start, m.stop, m.end) && AmountIn(s, m.start, m.stop, m.end) == AmountOf(m)
  {
    MatchIsMatch(s, i);
    var m := MatchAt(s, i).value;
    forall a, b, e | IsMatch(s, i, a, b, e) ensures b <= m.stop && (b == m.stop ==> e <= m.end) {
      MatchIsGreedy(s, i, a, b, e);
    }
    AmountRead(s, i, m);
  }

  lemma AmountRead(s: string, i: nat, m: Match)
    requires IsMatch(s, i, m.start, m.stop, m.end) && m.dollars == s[m.start..m.stop]
    requires m.cents == if m.end == m.stop then "" else s[m.stop + 1..m.end]
    ensures AmountIn(s, m.start, m.stop, m.end) == AmountOf(m)
  {
    CentsRead(s, m.stop, m.end);
  }

  lemma CentsRead(s: string, b: nat, e: nat)
    requires b <= e <= |s| && (e == b || (b + 2 <= e <= b + 3 && forall x :: b < x < e ==> IsDigit(s[x])))
    ensures CentsOf(if e == b then "" else s[b + 1..e]) ==
      if e == b + 2 then 10 * DigitValue(s[b + 1])
      else if e == b + 3 then 10 * DigitValue(s[b + 1]) + DigitValue(s[b + 2]) else 0
  {
    if e == b + 2 {
      assert s[b + 1..e] == [s[b + 1]] && [s[b + 1]][..0] == "";
    } else if e == b + 3 {
      var t := s[b + 1..e];
      assert t == [s[b + 1], s[b + 2]] && t[..1] == [s[b + 1]] && t[..1][..0] == "";
      assert Value(t[..1]) == DigitValue(s[b + 1]);
      assert Value(t) == Value(t[..1]) * 10 + DigitValue(s[b + 2]);
    }
  }

  /** Greedy matches at one dollar sign are one and the same. */
  lemma GreedyIsScan(s: string, i: nat, a: nat, b: nat, e: nat)
    requires IsGreedy(s, i, a, b, e)
    ensures MatchAt(s, i).Some?
    ensures var m := MatchAt(s, i).value; m.start == a && m.stop == b && m.end == e
  {
    MatchIsGreedy(s, i, a, b, e);
    MatchIsMatch(s, i);
    var m := MatchAt(s, i).value;
    assert IsMatch(s, i, m.start, m.stop, m.end);
  }

  /** The search after a match loses nothing: a match holds no other dollar sign. */
  lemma {:induction false} MatchesAre(s: string, i: nat, m: Match)
    requires i <= |s|
    ensures m in Matches(s, i) <==> FoundFrom(s, i, m)
    decreases |s| - i
  {
    if i < |s| {
      match MatchAt(s, i)
      case None =>
        MatchesAre(s, i + 1, m);
        assert FoundFrom(s, i + 1, m) ==> FoundFrom(s, i, m);
      case Some(first) =>
        MatchesAre(s, first.end, m);
        NoneInside(s, i);
        FoundNext(s, i, first, m);
        assert m in Matches(s, i) <==> m == first || m in Matches(s, first.end);
    }
  }

  ghost predicate FoundFrom(s: string, i: nat, m: Match) { exists k :: i <= k < |s| && MatchAt(s, k) == Some(m) }

  lemma NoneInside(s: string, i: nat)
    requires i < |s| && MatchAt(s, i).Some?
    ensures forall k :: i < k < MatchAt(s, i).value.end ==> MatchAt(s, k).None?
  {
    MatchIsMatch(s, i);
    forall k | i < k < MatchAt(s, i).value.end ensures MatchAt(s, k).None? { assert s[k] != '$'; }
  }

  lemma FoundNext(s: string, i: nat, first: Match, m: Match)
    requires i < |s| && MatchAt(s, i) == Some(first) && forall k :: i < k < first.end ==> MatchAt(s, k).None?
    ensures FoundFrom(s, i, m) <==> m == first || FoundFrom(s, first.end, m)
  {
    if FoundFrom(s, i, m) && m != first {
      var k :| i <= k < |s| && MatchAt(s, k) == Some(m);
      assert k >= first.end;
    }
  }

  lemma NamesAre(s: string, x: nat)
    ensures Names(s, x) <==> exists m :: m in Matches(s, 0) && AmountOf(m) == Some(x)
  {
    if Names(s, x) {
      var i, a, b, e :| IsGreedy(s, i, a, b, e) && AmountIn(s, a, b, e) == Some(x);
      GreedyIsScan(s, i, a, b, e);
      ScanIsGreedy(s, i);
      MatchesAre(s, 0, MatchAt(s, i).value);
    }
    if m :| m in Matches(s, 0) && AmountOf(m) == Some(x) {
      MatchesAre(s, 0, m);
      var k :| 0 <= k < |s| && MatchAt(s, k) == Some(m);
      ScanIsGreedy(s, k);
      assert Names(s, x);
    }
  }

  lemma NamesAreNat(s: string, x: int)
    requires Names(s, x)
    ensures x >= 0
  {
    var i, a, b, e :| IsGreedy(s, i, a, b, e) && AmountIn(s, a, b, e) == Some(x);
    GreedyIsScan(s, i, a, b, e);
    ScanIsGreedy(s, i);
  }

  lemma LargestIsLargest(s: string, best: Option<nat>)
    requires IsLargest(Matches(s, 0), best)
    ensures IsLargestIn(s, best)
  {
    forall x | Names(s, x) ensures best.Some? && x <= best.value {
      NamesAreNat(s, x);
      NamesAre(s, x);
    }
    if best.Some? { NamesAre(s, best.value); }
  }

  lemma LargestInText(s: string)
    ensures IsLargestIn(s, Largest(s))
  {
    FoldIsLargest([], None, Matches(s, 0));
    assert [] + Matches(s, 0) == Matches(s, 0);
    LargestIsLargest(s, Largest(s));
  }

  /** The loop over the matches, keeping the best amount so far. */
  method ParseLargestAmountCents(text: string) returns (best: Option<nat>)
    ensures IsLargest(Matches(text, 0), best)
    ensures best == Largest(text) && IsLargestIn(text, best)
    ensures best.Some? ==> best.value < CENTS_LIMIT
  {
    best := None;
    var i := 0;
    while i < |text|
      invariant i <= |text|
      invariant Fold(None, Matches(text, 0)) == Fold(best, Matches(text, i))
    {
      match MatchAt(text, i)
      case None =>
        i := i + 1;
      case Some(m) =>
        assert ([m] + Matches(text, m.end))[1..] == Matches(text, m.end);
        var amount := AmountOf(m);
        if amount.Some? && (best.None? || amount.value > best.value) {
          best := amount;
        }
        i := m.end;
    }
    FoldIsLargest([], None, Matches(text, 0));
    assert [] + Matches(text, 0) == Matches(text, 0);
    LargestIsSmall(text);
    LargestInText(text);
  }

  // ---- every amount is below a million dollars

  lemma {:induction false} ValueBound(s: string)
    ensures Value(s) < Pow10(|s|)
  {
    if s != "" { ValueBound(s[..|s| - 1]); }
  }

  function Pow10(n: nat): nat { if n == 0 then 1 else 10 * Pow10(n - 1) }

  lemma {:induction false} Pow10Monotone(m: nat, n: nat)
    requires m <= n
    ensures Pow10(m) <= Pow10(n)
  {
    if m < n { Pow10Monotone(m, n - 1); }
  }

  lemma {:induction false} CentsAreShort(s: string, i: nat, m: Match)
    requires i <= |s| && m in Matches(s, i)
    ensures |m.cents| <= 2
    decreases |s| - i
  {
    if i < |s| {
      match MatchAt(s, i)
      case None => CentsAreShort(s, i + 1, m);
      case Some(x) => if m != x { CentsAreShort(s, x.end, m); }
    }
  }

  lemma AmountIsSmall(m: Match)
    requires |m.cents| <= 2 && AmountOf(m).Some?
    ensures AmountOf(m).value < CENTS_LIMIT
  {
    var dollars := DropCommas(m.dollars);
    ValueBound(dollars);
    Pow10Monotone(|dollars|, 6);
    assert Pow10(6) == 1_000_000;
    ValueBound(m.cents);
    Pow10Monotone(|m.cents|, 2);
    assert Pow10(2) == 100 && Pow10(1) == 10;
  }

  lemma LargestIsSmall(s: string)
    ensures Largest(s).Some? ==> Largest(s).value < CENTS_LIMIT
  {
    FoldIsLargest([], None, Matches(s, 0));
    assert [] + Matches(s, 0) == Matches(s, 0);
    if Largest(s).Some? {
      var m :| m in Matches(s, 0) && AmountOf(m) == Largest(s);
      CentsAreShort(s, 0, m);
      AmountIsSmall(m);
    }
  }
}
