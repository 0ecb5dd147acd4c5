/** Printing an amount and reading it back. */
module PrintedAmounts {
  import opened Options
  import opened Amounts

  function DigitOf(n: nat): char
    requires n < 10
  {
    ('0' as int + n) as char
  }

  function Digits(n: nat): string {
    if n < 10 then [DigitOf(n)] else Digits(n / 10) + [DigitOf(n % 10)]
  }

  /** Exactly `k` digits, zero-padded. */
  function Pad(n: nat, k: nat): string {
    if k == 0 then "" else Pad(n / 10, k - 1) + [DigitOf(n % 10)]
  }

  /** With thousands commas. */
  function Grouped(n: nat): string {
    if n < 1000 then Digits(n) else Grouped(n / 1000) + "," + Pad(n % 1000, 3)
  }

  function Plain(cents: nat): string { "$" + Digits(cents / 100) + "." + Pad(cents % 100, 2) }

  function WithCommas(cents: nat): string { "$" + Grouped(cents / 100) + "." + Pad(cents % 100, 2) }

  predicate NoDollar(s: string) { forall i :: 0 <= i < |s| ==> s[i] != '$' }

  // ---- digits

  lemma {:induction false} DigitsValue(n: nat)
    ensures Value(Digits(n)) == n && |Digits(n)| >= 1 && forall i :: 0 <= i < |Digits(n)| ==> IsDigit(Digits(n)[i])
  {
    if n < 10 {
      assert Digits(n)[..0] == "" && Value("") == 0;
    } else {
      DigitsValue(n / 10);
      assert Digits(n)[..|Digits(n)| - 1] == Digits(n / 10);
    }
  }

  lemma {:induction false} DigitsLength(n: nat, k: nat)
    requires k >= 1
    ensures |Digits(n)| <= k <==> n < Pow10(k)
  {
    if n < 10 {
      Pow10Monotone(1, k);
    } else if k > 1 {
      DigitsLength(n / 10, k - 1);
    } else {
      DigitsValue(n / 10);
    }
  }

  lemma {:induction false} PadValue(n: nat, k: nat)
    requires n < Pow10(k)
    ensures |Pad(n, k)| == k && Value(Pad(n, k)) == n && forall i :: 0 <= i < k ==> IsDigit(Pad(n, k)[i])
  {
    if k > 0 {
      PadValue(n / 10, k - 1);
      assert Pad(n, k)[..k - 1] == Pad(n / 10, k - 1);
    }
  }

  lemma LastThree(n: nat)
    ensures n / 10 / 10 / 10 == n / 1000 && n % 1000 / 10 / 10 / 10 == 0
    ensures n / 10 / 10 % 10 == n % 1000 / 10 / 10 % 10 && n / 10 % 10 == n % 1000 / 10 % 10 && n % 10 == n % 1000 % 10
  {
  }

  lemma PadThree(m: nat)
    ensures Pad(m, 3) == [DigitOf(m / 10 / 10 % 10)] + [DigitOf(m / 10 % 10)] + [DigitOf(m % 10)]
  {
    assert Pad(m / 10 / 10, 1) == Pad(m / 10 / 10 / 10, 0) + [DigitOf(m / 10 / 10 % 10)];
    assert Pad(m / 10, 2) == Pad(m / 10 / 10, 1) + [DigitOf(m / 10 % 10)];
  }

  lemma DigitsThree(n: nat)
    requires n / 10 / 10 >= 10
    ensures Digits(n) ==
      Digits(n / 10 / 10 / 10) + [DigitOf(n / 10 / 10 % 10)] + [DigitOf(n / 10 % 10)] + [DigitOf(n % 10)]
  {
    assert Digits(n / 10) == Digits(n / 10 / 10) + [DigitOf(n / 10 % 10)];
  }

  lemma DigitsSplit(n: nat)
    requires n >= 1000
    ensures Digits(n) == Digits(n / 1000) + Pad(n % 1000, 3)
  {
    LastThree(n);
    DigitsThree(n);
    PadThree(n % 1000);
  }

  // ---- commas

  lemma {:induction false} DropConcat(a: string, b: string)
    ensures DropCommas(a + b) == DropCommas(a) + DropCommas(b)
    decreases |a|
  {
    if a == "" {
      assert a + b == b;
    } else {
      var first := if a[0] == ',' then "" else [a[0]];
      DropConcat(a[1..], b);
      assert (a + b)[1..] == a[1..] + b && (a + b)[0] == a[0];
      assert DropCommas(a + b) == first + (DropCommas(a[1..]) + DropCommas(b));
      assert DropCommas(a) == first + DropCommas(a[1..]);
    }
  }

  lemma {:induction false} DropNothing(s: string)
    requires forall i :: 0 <= i < |s| ==> IsDigit(s[i])
    ensures DropCommas(s) == s
  {
    if s != "" { DropNothing(s[1..]); }
  }

  lemma {:induction false} GroupedDigits(n: nat)
    ensures DropCommas(Grouped(n)) == Digits(n)
    ensures |Grouped(n)| >= 1 && IsDigit(Grouped(n)[0])
    ensures forall i :: 0 <= i < |Grouped(n)| ==> IsAmountChar(Grouped(n)[i])
  {
    if n < 1000 {
      DigitsValue(n);
      DropNothing(Digits(n));
    } else {
      GroupedDigits(n / 1000);
      assert Pow10(3) == 1000;
      PadValue(n % 1000, 3);
      DropNothing(Pad(n % 1000, 3));
      DropConcat(Grouped(n / 1000), ",");
      DropConcat(Grouped(n / 1000) + ",", Pad(n % 1000, 3));
      assert DropCommas(",") == "";
      DigitsSplit(n);
    }
  }

  lemma GroupedLength(n: nat)
    ensures n < 1_000_000 ==> |Grouped(n)| <= 7
    ensures 1_000_000 <= n < 10_000_000 ==> |Grouped(n)| == 9
  {
    GroupedLengthStep(n);
    if n >= 1000 { GroupedLengthStep(n / 1000); }
    if n >= 1_000_000 {
      var top := n / 1000 / 1000;
      assert n < 10_000_000 ==> top < 10;
      GroupedLengthStep(top);
      assert top < 10 ==> |Digits(top)| == 1;
    }
  }

  lemma GroupedLengthStep(n: nat)
    ensures n < 1000 ==> |Grouped(n)| <= 3
    ensures n >= 1000 ==> |Grouped(n)| == |Grouped(n / 1000)| + 4
  {
    assert Pow10(3) == 1000;
    DigitsLength(n, 3);
    PadValue(n % 1000, 3);
  }

  // ---- one printed amount in a text without other dollar signs

  lemma {:induction false} NoMatches(s: string, i: nat)
    requires i <= |s| && forall x :: i <= x < |s| ==> s[x] != '$'
    ensures Matches(s, i) == []
    decreases |s| - i
  {
    if i < |s| { NoMatches(s, i + 1); }
  }

  lemma {:induction false} SkipPrefix(s: string, i: nat, n: nat)
    requires i <= n <= |s| && forall x :: i <= x < n ==> s[x] != '$'
    ensures Matches(s, i) == Matches(s, n)
    decreases n - i
  {
    if i < n { SkipPrefix(s, i + 1, n); }
  }

  lemma {:induction false} TakeExactly(s: string, i: nat, limit: nat, n: nat)
    requires i <= n <= |s| && n <= i + limit && (forall x :: i <= x < n ==> IsAmountChar(s[x]))
    requires n == i + limit || n == |s| || !IsAmountChar(s[n])
    ensures TakeAmount(s, i, limit) == n
    decreases limit
  {
    if i < n { TakeExactly(s, i + 1, limit - 1, n); }
  }

  /** `text` has one dollar sign, at `p`, and `n` amount characters follow it, the first a digit. */
  ghost predicate OneAmount(text: string, p: nat, n: nat) {
    1 <= n && p + n < |text| && text[p] == '$' && (forall x :: 0 <= x < |text| && x != p ==> text[x] != '$') &&
    IsDigit(text[p + 1]) && (forall x :: p < x <= p + n ==> IsAmountChar(text[x])) &&
    (p + n + 1 < |text| ==> !IsAmountChar(text[p + n + 1]))
  }

  lemma OnlyMatch(text: string, p: nat, n: nat)
    requires OneAmount(text, p, n)
    ensures MatchAt(text, p).Some? && Matches(text, 0) == [MatchAt(text, p).value]
    ensures var m := MatchAt(text, p).value;
            m.start == p + 1 && m.stop == m.start + (if n <= 8 then n else 8) &&
            m.dollars == text[m.start..m.stop] && m.end == CentsEnd(text, m.stop) &&
            m.cents == if m.end == m.stop then "" else text[m.stop + 1..m.end]
  {
    SkipPrefix(text, 0, p);
    assert SkipSpaces(text, p + 1) == p + 1;
    TakeExactly(text, p + 2, 7, if n <= 8 then p + 1 + n else p + 9);
    NoMatches(text, MatchAt(text, p).value.end);
  }

  /** The text around a printed amount. */
  function Around(pre: string, run: string, rest: string): string {
    pre + ("$" + run + rest)
  }

  lemma AroundIsOneAmount(pre: string, run: string, rest: string)
    requires NoDollar(pre) && NoDollar(rest) && |run| >= 1 && IsDigit(run[0])
    requires forall i :: 0 <= i < |run| ==> IsAmountChar(run[i])
    requires rest == "" || !IsAmountChar(rest[0])
    ensures OneAmount(Around(pre, run, rest), |pre|, |run|)
    ensures var text := Around(pre, run, rest); var a := |pre| + 1;
            |text| == a + |run| + |rest| && text[a..a + |run|] == run &&
            (|rest| >= 3 ==> text[a + |run|] == rest[0] && text[a + |run| + 1..a + |run| + 3] == rest[1..3])
  {
    var text := Around(pre, run, rest);
    var a := |pre| + 1;
    assert forall x :: 0 <= x < |rest| ==> text[a + |run| + x] == rest[x];
    forall x | 0 <= x < |text| && x != |pre| ensures text[x] != '$' {
      if x < |pre| { assert text[x] == pre[x]; }
      else if x < a + |run| { assert text[x] == run[x - a]; }
      else { assert text[x] == rest[x - a - |run|]; }
    }
    assert forall x :: 0 <= x < |run| ==> text[a + x] == run[x];
    forall x | |pre| < x <= |pre| + |run| ensures IsAmountChar(text[x]) { assert text[x] == run[x - a]; }
  }

  function Tail(cents: nat, post: string): string { "." + Pad(cents, 2) + post }

  lemma TailIsClean(cents: nat, post: string)
    requires NoDollar(post) && cents < 100
    ensures var rest := Tail(cents, post); NoDollar(rest) && |rest| >= 3 && rest[0] == '.'
    ensures var rest := Tail(cents, post); rest[1..3] == Pad(cents, 2) && IsDigit(rest[1]) && IsDigit(rest[2])
  {
    var rest := Tail(cents, post);
    assert Pow10(2) == 100;
    PadValue(cents, 2);
    assert rest[1] == Pad(cents, 2)[0] && rest[2] == Pad(cents, 2)[1];
    forall i | 0 <= i < |rest| ensures rest[i] != '$' {
      if i >= 3 { assert rest[i] == post[i - 3]; }
    }
  }

  lemma ReadsText(text: string, p: nat, run: string, cents: nat)
    requires OneAmount(text, p, |run|) && |run| <= 8 && |DropCommas(run)| <= 6 && cents < 100
    requires var b := p + 1 + |run|; b + 3 <= |text| && text[b] == '.' && text[b + 1..b + 3] == Pad(cents, 2)
    requires text[p + 1..p + 1 + |run|] == run
    ensures Largest(text) == Some(Value(DropCommas(run)) * 100 + cents)
  {
    OnlyMatch(text, p, |run|);
    var m := MatchAt(text, p).value;
    TwoCents(text, m.stop, cents);
    PrintedMatch(m, run, cents);
    OneMatch(m);
  }

  lemma TwoCents(text: string, b: nat, cents: nat)
    requires cents < 100 && b + 3 <= |text| && text[b] == '.' && text[b + 1..b + 3] == Pad(cents, 2)
    ensures CentsEnd(text, b) == b + 3
  {
    assert Pow10(2) == 100;
    PadValue(cents, 2);
    assert text[b + 1] == Pad(cents, 2)[0] && text[b + 2] == Pad(cents, 2)[1];
  }

  lemma PrintedMatch(m: Match, run: string, cents: nat)
    requires m.dollars == run && m.cents == Pad(cents, 2) && cents < 100 && |DropCommas(run)| <= 6
    ensures AmountOf(m) == Some(Value(DropCommas(run)) * 100 + cents)
  {
    assert Pow10(2) == 100;
    PadValue(cents, 2);
  }

  /** A printed amount whose dollars fit the expression reads back as what its digits say. */
  lemma ReadsBack(pre: string, run: string, cents: nat, post: string)
    requires NoDollar(pre) && NoDollar(post) && 1 <= |run| <= 8 && IsDigit(run[0]) && cents < 100
    requires forall i :: 0 <= i < |run| ==> IsAmountChar(run[i])
    requires |DropCommas(run)| <= 6
    ensures Largest(Around(pre, run, Tail(cents, post))) == Some(Value(DropCommas(run)) * 100 + cents)
  {
    TailIsClean(cents, post);
    AroundIsOneAmount(pre, run, Tail(cents, post));
    ReadsText(Around(pre, run, Tail(cents, post)), |pre|, run, cents);
  }

  lemma OneMatch(m: Match)
    requires AmountOf(m).Some?
    ensures Fold(None, [m]) == AmountOf(m)
  {
    assert [m][1..] == [];
    assert Fold(AmountOf(m), []) == AmountOf(m);
  }

  /** Printing with two decimals and reading back gives the amount exactly when it is below the limit. */
  lemma PlainRoundTrip(pre: string, cents: nat, post: string)
    requires NoDollar(pre) && NoDollar(post)
    ensures Largest(pre + (Plain(cents) + post)) == Some(cents) <==> cents < 100_000_000
  {
    LargestIsSmall(pre + (Plain(cents) + post));
    if cents < CENTS_LIMIT {
      var run := Digits(cents / 100);
      DigitsValue(cents / 100);
      assert Pow10(6) == 1_000_000;
      DigitsLength(cents / 100, 6);
      DropNothing(run);
      ReadsBack(pre, run, cents % 100, post);
      assert pre + (Plain(cents) + post) == Around(pre, run, Tail(cents % 100, post));
    }
  }

  lemma CommasRoundTrip(pre: string, cents: nat, post: string)
    requires NoDollar(pre) && NoDollar(post)
    ensures Largest(pre + (WithCommas(cents) + post)) == Some(cents) <==> cents < 100_000_000
  {
    LargestIsSmall(pre + (WithCommas(cents) + post));
    if cents < CENTS_LIMIT {
      var run := Grouped(cents / 100);
      GroupedDigits(cents / 100);
      GroupedLength(cents / 100);
      DigitsValue(cents / 100);
      assert Pow10(6) == 1_000_000;
      DigitsLength(cents / 100, 6);
      ReadsBack(pre, run, cents % 100, post);
      assert pre + (WithCommas(cents) + post) == Around(pre, run, Tail(cents % 100, post));
    }
  }

  /** Past the limit the comma form is not refused but misread: the eight characters the expression takes
      of `d,ddd,ddd` are six digits, so one to ten million dollars reads as a tenth of that. */
  lemma MillionsWithCommasReadAsATenth(pre: string, cents: nat, post: string)
    requires NoDollar(pre) && NoDollar(post) && CENTS_LIMIT <= cents < 10 * CENTS_LIMIT
    ensures Largest(pre + (WithCommas(cents) + post)) == Some(cents / 1000 * 100)
  {
    MillionsAround(pre, cents / 100, cents % 100, post);
    assert pre + (WithCommas(cents) + post) == Around(pre, Grouped(cents / 100), Tail(cents % 100, post));
  }

  lemma MillionsAround(pre: string, n: nat, cents: nat, post: string)
    requires NoDollar(pre) && NoDollar(post) && 1_000_000 <= n < 10_000_000 && cents < 100
    ensures Largest(Around(pre, Grouped(n), Tail(cents, post))) == Some(n / 10 * 100)
  {
    GroupedDigits(n);
    GroupedLength(n);
    TailIsClean(cents, post);
    AroundIsOneAmount(pre, Grouped(n), Tail(cents, post));
    MillionsText(Around(pre, Grouped(n), Tail(cents, post)), |pre|, n);
  }

  lemma MillionsText(text: string, p: nat, n: nat)
    requires 1_000_000 <= n < 10_000_000 && OneAmount(text, p, 9) && p + 10 <= |text|
    requires text[p + 1..p + 10] == Grouped(n)
    ensures Largest(text) == Some(n / 10 * 100)
  {
    OnlyMatch(text, p, 9);
    var m := MatchAt(text, p).value;
    assert m.dollars == text[p + 1..p + 10][..8];
    assert text[m.stop] == text[p + 1..p + 10][8];
    LastCharIsADigit(n);
    assert m.cents == "";
    SixDigitsAmount(m, n);
    OneMatch(m);
  }

  lemma SixDigitsAmount(m: Match, n: nat)
    requires 1_000_000 <= n < 10_000_000 && |Grouped(n)| >= 8 && m.dollars == Grouped(n)[..8] && m.cents == ""
    ensures AmountOf(m) == Some(n / 10 * 100)
  {
    FirstSixDigits(n);
  }

  lemma LastCharIsADigit(n: nat)
    ensures |Grouped(n)| >= 1 && IsDigit(Grouped(n)[|Grouped(n)| - 1])
  {
    if n < 1000 { DigitsValue(n); } else { assert Pow10(3) == 1000; PadValue(n % 1000, 3); }
  }

  lemma FirstSixDigits(n: nat)
    requires 1_000_000 <= n < 10_000_000
    ensures |Grouped(n)| == 9 && |DropCommas(Grouped(n)[..8])| == 6 && Value(DropCommas(Grouped(n)[..8])) == n / 10
  {
    var run := Grouped(n);
    GroupedLength(n);
    GroupedDigits(n);
    LastCharIsADigit(n);
    assert run == run[..8] + [run[8]];
    DropConcat(run[..8], [run[8]]);
    DropNothing([run[8]]);
    assert Digits(n) == Digits(n / 10) + [DigitOf(n % 10)];
    assert DropCommas(run[..8]) == Digits(n / 10) by {
      var a, b := DropCommas(run[..8]), Digits(n / 10);
      assert a + [run[8]] == b + [DigitOf(n % 10)];
      assert |a| == |b|;
      assert a == (a + [run[8]])[..|a|] && b == (b + [DigitOf(n % 10)])[..|b|];
    }
    DigitsValue(n / 10);
    assert Pow10(6) == 1_000_000 && Pow10(5) == 100_000;
    DigitsLength(n / 10, 6);
    DigitsLength(n / 10, 5);
  }
}
