/** Texts with more than one amount, and amounts with one digit of cents. */
module SeveralAmounts {
  import opened Options
  import opened Amounts
  import opened PrintedAmounts

  // ---- a text cut at a dollar sign

  /** No match reaches across the cut. */
  lemma MatchOfFirst(s: string, t: string, i: int, a: int, b: int, e: int)
    requires (t == "" || t[0] == '$') && 0 <= i < |s|
    ensures IsMatch(s + t, i, a, b, e) <==> IsMatch(s, i, a, b, e)
  {
    var u := s + t;
    assert forall x :: 0 <= x < |s| ==> u[x] == s[x];
    assert t != "" ==> u[|s|] == '$';
  }

  lemma MatchOfSecond(s: string, t: string, i: int, a: int, b: int, e: int)
    requires i >= |s|
    ensures IsMatch(s + t, i, a, b, e) <==> IsMatch(t, i - |s|, a - |s|, b - |s|, e - |s|)
  {
    var u, n := s + t, |s|;
    assert forall x :: n <= x < |u| ==> u[x] == t[x - n];
    if IsMatch(t, i - n, a - n, b - n, e - n) {
      forall x | i < x < a ensures IsSpace(u[x]) { assert IsSpace(t[x - n]); }
      forall x | a < x < b ensures IsAmountChar(u[x]) { assert IsAmountChar(t[x - n]); }
      forall x | b < x < e ensures e > b ==> IsDigit(u[x]) { assert IsDigit(t[x - n]); }
    }
    if IsMatch(u, i, a, b, e) {
      forall x | i - n < x < a - n ensures IsSpace(t[x]) { assert IsSpace(u[x + n]); }
      forall x | a - n < x < b - n ensures IsAmountChar(t[x]) { assert IsAmountChar(u[x + n]); }
      forall x | b - n < x < e - n ensures IsDigit(t[x]) { assert IsDigit(u[x + n]); }
    }
  }

  lemma GreedyOfFirst(s: string, t: string, i: int, a: int, b: int, e: int)
    requires (t == "" || t[0] == '$') && 0 <= i < |s|
    ensures IsGreedy(s + t, i, a, b, e) <==> IsGreedy(s, i, a, b, e)
  {
    forall a', b', e' ensures IsMatch(s + t, i, a', b', e') <==> IsMatch(s, i, a', b', e') {
      MatchOfFirst(s, t, i, a', b', e');
    }
  }

  lemma GreedyOfSecond(s: string, t: string, i: int, a: int, b: int, e: int)
    requires i >= |s|
    ensures IsGreedy(s + t, i, a, b, e) <==> IsGreedy(t, i - |s|, a - |s|, b - |s|, e - |s|)
  {
    if IsGreedy(s + t, i, a, b, e) { GreedyBack(s, t, i, a, b, e); }
    if IsGreedy(t, i - |s|, a - |s|, b - |s|, e - |s|) { GreedyForth(s, t, i, a, b, e); }
  }

  lemma GreedyBack(s: string, t: string, i: int, a: int, b: int, e: int)
    requires i >= |s| && IsGreedy(s + t, i, a, b, e)
    ensures IsGreedy(t, i - |s|, a - |s|, b - |s|, e - |s|)
  {
    var n, k := |s|, i - |s|;
    MatchOfSecond(s, t, i, a, b, e);
    forall a', b', e' | IsMatch(t, k, a', b', e') ensures b' <= b - n && (b' == b - n ==> e' <= e - n) {
      MatchOfSecond(s, t, i, a' + n, b' + n, e' + n);
    }
  }

  lemma GreedyForth(s: string, t: string, i: int, a: int, b: int, e: int)
    requires i >= |s| && IsGreedy(t, i - |s|, a - |s|, b - |s|, e - |s|)
    ensures IsGreedy(s + t, i, a, b, e)
  {
    var n, k := |s|, i - |s|;
    MatchOfSecond(s, t, i, a, b, e);
    forall a', b', e' | IsMatch(s + t, i, a', b', e') ensures b' <= b && (b' == b ==> e' <= e) {
      MatchOfSecond(s, t, i, a', b', e');
      assert IsMatch(t, k, a' - n, b' - n, e' - n);
    }
  }

  lemma AmountOfFirst(s: string, t: string, a: int, b: int, e: int)
    requires 0 <= a < b <= e <= |s|
    ensures AmountIn(s + t, a, b, e) == AmountIn(s, a, b, e)
  {
    assert (s + t)[a..b] == s[a..b];
  }

  lemma AmountOfSecond(s: string, t: string, a: int, b: int, e: int)
    requires |s| <= a < b <= e <= |s + t|
    ensures AmountIn(s + t, a, b, e) == AmountIn(t, a - |s|, b - |s|, e - |s|)
  {
    assert (s + t)[a..b] == t[a - |s|..b - |s|];
  }

  lemma NamedInFirst(s: string, t: string, x: int)
    requires (t == "" || t[0] == '$') && Names(s, x)
    ensures Names(s + t, x)
  {
    var i, a, b, e :| IsGreedy(s, i, a, b, e) && AmountIn(s, a, b, e) == Some(x);
    GreedyOfFirst(s, t, i, a, b, e);
    AmountOfFirst(s, t, a, b, e);
  }

  lemma NamedInSecond(s: string, t: string, x: int)
    requires Names(t, x)
    ensures Names(s + t, x)
  {
    var i, a, b, e :| IsGreedy(t, i, a, b, e) && AmountIn(t, a, b, e) == Some(x);
    NameMoved(s, t, i, a, b, e, i + |s|, a + |s|, b + |s|, e + |s|);
  }

  lemma NameMoved(s: string, t: string, i: int, a: int, b: int, e: int, i': int, a': int, b': int, e': int)
    requires IsGreedy(t, i, a, b, e) && i' == i + |s| && a' == a + |s| && b' == b + |s| && e' == e + |s|
    ensures IsGreedy(s + t, i', a', b', e') && AmountIn(s + t, a', b', e') == AmountIn(t, a, b, e)
  {
    GreedyOfSecond(s, t, i', a', b', e');
    AmountOfSecond(s, t, a', b', e');
  }

  lemma NamedByOne(s: string, t: string, x: int)
    requires (t == "" || t[0] == '$') && Names(s + t, x)
    ensures Names(s, x) || Names(t, x)
  {
    var i, a, b, e :| IsGreedy(s + t, i, a, b, e) && AmountIn(s + t, a, b, e) == Some(x);
    if i < |s| {
      GreedyOfFirst(s, t, i, a, b, e);
      AmountOfFirst(s, t, a, b, e);
    } else {
      GreedyOfSecond(s, t, i, a, b, e);
      AmountOfSecond(s, t, a, b, e);
    }
  }

  function Larger(x: Option<nat>, y: Option<nat>): Option<nat> {
    if x.None? then y else if y.None? || y.value <= x.value then x else y
  }

  /** Any text, cut at any of its dollar signs: its largest amount is the larger of the two parts'. */
  lemma LargestOfParts(s: string, t: string)
    requires t == "" || t[0] == '$'
    ensures Largest(s + t) == Larger(Largest(s), Largest(t))
  {
    LargestInText(s);
    LargestInText(t);
    LargestInText(s + t);
    OnlyLargest(s, t, s + t, Largest(s), Largest(t), Largest(s + t));
  }

  lemma OnlyLargest(s: string, t: string, u: string, x: Option<nat>, y: Option<nat>, z: Option<nat>)
    requires IsLargestIn(s, x) && IsLargestIn(t, y) && IsLargestIn(u, z) && u == s + t && (t == "" || t[0] == '$')
    ensures z == Larger(x, y)
  {
    if z.Some? { NamedByOne(s, t, z.value); }
    if x.Some? { NamedInFirst(s, t, x.value); }
    if y.Some? { NamedInSecond(s, t, y.value); }
  }

  /** Two printed amounts, whatever stands around them: the larger one is read. */
  lemma TwoAmounts(pre: string, x: nat, mid: string, y: nat, post: string)
    requires NoDollar(pre) && NoDollar(mid) && NoDollar(post) && x < CENTS_LIMIT && y < CENTS_LIMIT
    ensures Largest(pre + (Plain(x) + mid) + (Plain(y) + post)) == Some(if x <= y then y else x)
  {
    var first, second := pre + (Plain(x) + mid), Plain(y) + post;
    PrintedIsLargest(pre, x, mid);
    PrintedIsLargest("", y, post);
    assert "" + second == second;
    StartsWithDollar(y, post);
    Joined(first, second, first + second, x, y);
  }

  lemma Joined(s: string, t: string, u: string, x: nat, y: nat)
    requires IsLargestIn(s, Some(x)) && IsLargestIn(t, Some(y)) && u == s + t && t != "" && t[0] == '$'
    ensures Largest(u) == Some(if x <= y then y else x)
  {
    LargestInText(u);
    OnlyLargest(s, t, u, Some(x), Some(y), Largest(u));
  }

  lemma PrintedIsLargest(pre: string, x: nat, post: string)
    requires NoDollar(pre) && NoDollar(post) && x < CENTS_LIMIT
    ensures IsLargestIn(pre + (Plain(x) + post), Some(x))
  {
    PlainRoundTrip(pre, x, post);
    LargestInText(pre + (Plain(x) + post));
  }

  lemma StartsWithDollar(y: nat, post: string)
    ensures (Plain(y) + post)[0] == '$'
  {
  }

  /** One digit of cents counts tens: `$12.5` is twelve dollars fifty. */
  lemma OneDigitOfCents(pre: string, n: nat, d: char, post: string)
    requires NoDollar(pre) && NoDollar(post) && n < 1_000_000 && IsDigit(d) && (post == "" || !IsDigit(post[0]))
    ensures Largest(pre + ("$" + Digits(n) + ("." + [d] + post))) == Some(n * 100 + (d as int - '0' as int) * 10)
  {
    var run, rest := Digits(n), "." + [d] + post;
    PlainRun(n);
    OneDigitTail(d, post);
    AroundIsOneAmount(pre, run, rest);
    var text, b := Around(pre, run, rest), |pre| + 1 + |run|;
    assert forall i :: 0 <= i < |rest| ==> text[b + i] == rest[i];
    ReadsTens(text, |pre|, run, d);
    assert text == pre + ("$" + Digits(n) + ("." + [d] + post));
  }

  lemma PlainRun(n: nat)
    requires n < 1_000_000
    ensures 1 <= |Digits(n)| <= 6 && IsDigit(Digits(n)[0])
    ensures DropCommas(Digits(n)) == Digits(n) && Value(Digits(n)) == n
    ensures forall i :: 0 <= i < |Digits(n)| ==> IsDigit(Digits(n)[i])
  {
    DigitsValue(n);
    assert Pow10(6) == 1_000_000;
    DigitsLength(n, 6);
    DropNothing(Digits(n));
  }

  lemma OneDigitTail(d: char, post: string)
    requires NoDollar(post) && IsDigit(d)
    ensures var rest := "." + [d] + post;
      NoDollar(rest) && |rest| == |post| + 2 && rest[0] == '.' && rest[1] == d && rest[2..] == post
  {
    var rest := "." + [d] + post;
    forall i | 0 <= i < |rest| ensures rest[i] != '$' {
      if i >= 2 { assert rest[i] == post[i - 2]; }
    }
  }

  lemma ReadsTens(text: string, p: nat, run: string, d: char)
    requires OneAmount(text, p, |run|) && |run| <= 8 && |DropCommas(run)| <= 6 && IsDigit(d)
    requires var b := p + 1 + |run|;
      b + 2 <= |text| && text[b] == '.' && text[b + 1] == d && (b + 2 < |text| ==> !IsDigit(text[b + 2]))
    requires text[p + 1..p + 1 + |run|] == run
    ensures Largest(text) == Some(Value(DropCommas(run)) * 100 + (d as int - '0' as int) * 10)
  {
    OnlyMatch(text, p, |run|);
    var m := MatchAt(text, p).value;
    TensMatch(text, m, run, d);
    OneMatch(m);
  }

  lemma TensMatch(text: string, m: Match, run: string, d: char)
    requires m.dollars == run && |DropCommas(run)| <= 6 && m.stop + 2 <= |text| && IsDigit(d)
    requires text[m.stop] == '.' && text[m.stop + 1] == d && (m.stop + 2 < |text| ==> !IsDigit(text[m.stop + 2]))
    requires m.end == CentsEnd(text, m.stop)
    requires m.cents == if m.end == m.stop then "" else if m.stop < m.end <= |text| then text[m.stop + 1..m.end] else ""
    ensures AmountOf(m) == Some(Value(DropCommas(run)) * 100 + (d as int - '0' as int) * 10)
  {
    TensEnd(text, m.stop, d);
    TensOf(m, run, d);
  }

  lemma TensEnd(text: string, b: nat, d: char)
    requires b + 2 <= |text| && text[b] == '.' && text[b + 1] == d && IsDigit(d)
    requires b + 2 < |text| ==> !IsDigit(text[b + 2])
    ensures CentsEnd(text, b) == b + 2 && text[b + 1..b + 2] == [d]
  {
  }

  lemma TensOf(m: Match, run: string, d: char)
    requires m.dollars == run && m.cents == [d] && IsDigit(d) && |DropCommas(run)| <= 6
    ensures AmountOf(m) == Some(Value(DropCommas(run)) * 100 + (d as int - '0' as int) * 10)
  {
    assert [d][..0] == "" && Value("") == 0;
    assert Value([d]) == d as int - '0' as int;
  }

  // ---- what may stand between the dollar sign and the amount

  /** The white space of the expression. */
  ghost predicate White(c: char) {
    '\U{9}' <= c <= '\U{D}' || '\U{1C}' <= c <= '\U{20}' || '\U{2000}' <= c <= '\U{200A}' ||
    c in {'\U{85}', '\U{A0}', '\U{1680}', '\U{2028}', '\U{2029}', '\U{202F}', '\U{205F}', '\U{3000}'}
  }

  /** One character between the dollar sign and the digits: the amount is read if and only if it is white space. */
  lemma OneCharBetween(pre: string, c: char, n: nat, post: string)
    requires NoDollar(pre) && NoDollar(post) && n < 1_000_000 && c != '$' && !IsDigit(c)
    requires post == "" || (!IsAmountChar(post[0]) && post[0] != '.')
    ensures Largest(pre + ("$" + [c] + (Digits(n) + post))) == if White(c) then Some(n * 100) else None
  {
    PlainRun(n);
    CharBetween(pre, c, Digits(n), post);
  }

  lemma CharBetween(pre: string, c: char, run: string, post: string)
    requires NoDollar(pre) && NoDollar(post) && c != '$' && !IsDigit(c) && 1 <= |run| <= 6
    requires (forall i :: 0 <= i < |run| ==> IsDigit(run[i])) && DropCommas(run) == run
    requires post == "" || (!IsAmountChar(post[0]) && post[0] != '.')
    ensures Largest(pre + ("$" + [c] + (run + post))) == if White(c) then Some(Value(run) * 100) else None
  {
    var text, b := pre + ("$" + [c] + (run + post)), |pre| + 2 + |run|;
    BetweenIs(pre, c, run, post);
    if b < |text| { assert text[b] == text[b..][0]; }
    ReadsBetween(text, |pre|, b, run);
  }

  lemma ReadsBetween(text: string, p: nat, b: nat, run: string)
    requires p + 2 < b <= |text| && text[p] == '$' && !IsDigit(text[p + 1]) && text[p + 2..b] == run && |run| <= 6
    requires (forall x :: 0 <= x < |text| && x != p ==> text[x] != '$') && DropCommas(run) == run
    requires (forall x :: p + 2 <= x < b ==> IsDigit(text[x])) &&
      (b < |text| ==> !IsAmountChar(text[b]) && text[b] != '.')
    ensures Largest(text) == if White(text[p + 1]) then Some(Value(run) * 100) else None
  {
    SkipPrefix(text, 0, p);
    if White(text[p + 1]) {
      MatchAfterWhite(text, p, b);
      ReadsWhole(text, p, b, run);
    } else {
      AfterOther(text, p);
    }
  }

  lemma AfterOther(text: string, p: nat)
    requires p + 1 < |text| && text[p] == '$' && !White(text[p + 1]) && !IsDigit(text[p + 1])
    requires forall x :: p < x < |text| ==> text[x] != '$'
    ensures Fold(None, Matches(text, p)) == None
  {
    assert SkipSpaces(text, p + 1) == p + 1;
    NoMatches(text, p + 1);
  }

  lemma MatchAfterWhite(text: string, p: nat, b: nat)
    requires p + 2 < b <= |text| && b <= p + 8 && text[p] == '$' && White(text[p + 1])
    requires (forall x :: p + 2 <= x < b ==> IsDigit(text[x])) &&
      (b < |text| ==> !IsAmountChar(text[b]) && text[b] != '.')
    ensures MatchAt(text, p) == Some(Match(p + 2, b, b, text[p + 2..b], ""))
  {
    assert SkipSpaces(text, p + 2) == p + 2;
    TakeExactly(text, p + 3, 7, b);
  }

  lemma ReadsWhole(text: string, p: nat, b: nat, run: string)
    requires p < b <= |text| && MatchAt(text, p) == Some(Match(p + 2, b, b, run, ""))
    requires (forall x :: p < x < |text| ==> text[x] != '$') && |run| <= 6 && DropCommas(run) == run
    ensures Fold(None, Matches(text, p)) == Some(Value(run) * 100)
  {
    var m := Match(p + 2, b, b, run, "");
    NoMatches(text, b);
    assert Matches(text, p) == [m];
    assert AmountOf(m) == Some(Value(run) * 100);
    OneMatch(m);
  }

  lemma BetweenIs(pre: string, c: char, run: string, post: string)
    requires NoDollar(pre) && NoDollar(post) && c != '$' && 1 <= |run| && forall i :: 0 <= i < |run| ==> IsDigit(run[i])
    ensures var text, p := pre + ("$" + [c] + (run + post)), |pre|; var b := p + 2 + |run|;
      |text| == b + |post| && text[p] == '$' && text[p + 1] == c && text[p + 2..b] == run && text[b..] == post &&
      (forall x :: 0 <= x < |text| && x != p ==> text[x] != '$') && forall x :: p + 2 <= x < b ==> IsDigit(text[x])
  {
    var text, p := pre + ("$" + [c] + (run + post)), |pre|;
    var b := p + 2 + |run|;
    assert forall x :: p + 2 <= x < b ==> text[x] == run[x - p - 2];
    forall x | 0 <= x < |text| && x != p ensures text[x] != '$' {
      if x < p { assert text[x] == pre[x]; }
      else if p + 2 <= x < b { assert text[x] == run[x - p - 2]; }
      else if x >= b { assert text[x] == post[x - b]; }
    }
  }
}
