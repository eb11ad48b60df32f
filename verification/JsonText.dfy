/** Text, decimal digits and exact decimals, shared by the two bounded JSON parsers. */
module JsonText {

  predicate IsDigit(c: char) { '0' <= c <= '9' }

  predicate Starts(text: string, at: nat, word: string) {
    at + |word| <= |text| && text[at..at + |word|] == word
  }

  lemma StartsSplits(text: string, at: nat, a: string, b: string)
    ensures Starts(text, at, a + b) <==> Starts(text, at, a) && Starts(text, at + |a|, b)
  {
    if at + |a| + |b| <= |text| {
      var whole := text[at..at + |a + b|];
      assert whole == text[at..at + |a|] + text[at + |a|..at + |a| + |b|];
      assert whole[..|a|] == text[at..at + |a|] && whole[|a|..] == text[at + |a|..at + |a| + |b|];
      assert (a + b)[..|a|] == a && (a + b)[|a|..] == b;
    }
  }

  // ----- digits -----

  function SkipDigits(text: string, at: nat): (end: nat)
    requires at <= |text|
    ensures at <= end <= |text| && (forall i | at <= i < end :: IsDigit(text[i]))
    ensures end < |text| ==> !IsDigit(text[end])
    decreases |text| - at
  {
    if at < |text| && IsDigit(text[at]) then SkipDigits(text, at + 1) else at
  }

  predicate AllDigits(s: string) { forall i | 0 <= i < |s| :: IsDigit(s[i]) }

  function DigitValue(c: char): nat
    requires IsDigit(c)
  {
    c as int - '0' as int
  }

  function DigitsValue(s: string): nat
    requires AllDigits(s)
  {
    if s == [] then 0 else DigitsValue(s[..|s| - 1]) * 10 + DigitValue(s[|s| - 1])
  }

  function Digits(n: nat): string {
    if n < 10 then [('0' as int + n) as char] else Digits(n / 10) + [('0' as int + n % 10) as char]
  }

  function Pow10(k: nat): nat { if k == 0 then 1 else 10 * Pow10(k - 1) }

  lemma {:induction false} DigitsMean(n: nat)
    ensures AllDigits(Digits(n)) && DigitsValue(Digits(n)) == n && Digits(n) != []
    ensures |Digits(n)| > 1 ==> Digits(n)[0] != '0'
    ensures n > 0 ==> Digits(n)[0] != '0'
  {
    if n < 10 {
      assert Digits(n)[..0] == [];
    } else {
      DigitsMean(n / 10);
      assert Digits(n)[..|Digits(n)| - 1] == Digits(n / 10);
    }
  }

  lemma {:induction false} DigitsShort(n: nat, k: nat)
    requires n < Pow10(k) && k >= 1
    ensures |Digits(n)| <= k
    decreases k
  {
    if n >= 10 {
      DigitsShort(n / 10, k - 1);
    }
  }

  lemma {:induction false} SkipDigitsOver(text: string, at: nat, s: string)
    requires Starts(text, at, s) && AllDigits(s) && at <= |text|
    requires at + |s| < |text| ==> !IsDigit(text[at + |s|])
    ensures SkipDigits(text, at) == at + |s|
    decreases |s|
  {
    if s != [] {
      assert text[at..at + |s|][0] == s[0];
      assert text[at + 1..at + |s|] == text[at..at + |s|][1..];
      SkipDigitsOver(text, at + 1, s[1..]);
    }
  }

  lemma Pow10Of19()
    ensures Pow10(19) == 10_000_000_000_000_000_000
  {
    assert Pow10(4) == 10_000;
    assert Pow10(8) == 100_000_000;
    assert Pow10(12) == 1_000_000_000_000;
    assert Pow10(16) == 10_000_000_000_000_000;
  }


  // ----- exact decimals -----

  function Whole(token: string): string { token[..SkipDigits(token, 0)] }

  function FractionOf(token: string): string
    requires Whole(token) != token
  {
    token[|Whole(token)| + 1..]
  }

  /** One to ten digits without a leading zero, a point, one to six digits. */
  predicate ValidToken(token: string) {
    && 1 <= |Whole(token)| <= 10 && (|Whole(token)| > 1 ==> token[0] != '0')
    && |Whole(token)| < |token| && token[|Whole(token)|] == '.'
    && 1 <= |FractionOf(token)| <= 6 && AllDigits(FractionOf(token))
  }

  lemma TokenParts(token: string)
    requires ValidToken(token)
    ensures token == Whole(token) + ("." + FractionOf(token))
    ensures AllDigits(Whole(token)) && AllDigits(FractionOf(token))
    ensures 1 <= |Whole(token)| <= 10 && 1 <= |FractionOf(token)| <= 6
    ensures |Whole(token)| > 1 ==> Whole(token)[0] != '0'
  {
  }

  function Zeros(k: nat): string { seq(k, i => '0') }

  /** The fraction filled up to six digits. */
  function Filled(token: string): (f: string)
    requires ValidToken(token)
    ensures |f| == 6 && AllDigits(f)
  {
    FractionOf(token) + Zeros(6 - |FractionOf(token)|)
  }

  function Millionths(token: string): nat
    requires ValidToken(token)
  {
    DigitsValue(Whole(token)) * 1_000_000 + DigitsValue(Filled(token))
  }

  lemma TimesTen(x: nat, y: nat)
    ensures x * (10 * y) == x * y * 10
  {
  }

  lemma {:induction false} DigitsValueSplits(a: string, b: string)
    requires AllDigits(a) && AllDigits(b)
    ensures AllDigits(a + b) && DigitsValue(a + b) == DigitsValue(a) * Pow10(|b|) + DigitsValue(b)
    decreases |b|
  {
    if b == [] {
      assert a + b == a;
    } else {
      var front := b[..|b| - 1];
      assert (a + b)[..|a + b| - 1] == a + front;
      DigitsValueSplits(a, front);
      TimesTen(DigitsValue(a), Pow10(|front|));
      assert (a + b)[|a + b| - 1] == b[|b| - 1];
      assert AllDigits(a + b);
    }
  }

  lemma {:induction false} ZerosAreZero(k: nat)
    ensures AllDigits(Zeros(k)) && DigitsValue(Zeros(k)) == 0
  {
    if k > 0 {
      assert Zeros(k)[..k - 1] == Zeros(k - 1);
      ZerosAreZero(k - 1);
    }
  }

  /** Nothing is rounded: the millionths are the digits of the token, read as one integer, scaled
      up by the places the token leaves out. */
  lemma MillionthsExact(token: string)
    requires ValidToken(token)
    ensures AllDigits(Whole(token) + FractionOf(token))
    ensures Millionths(token) == DigitsValue(Whole(token) + FractionOf(token)) * Pow10(6 - |FractionOf(token)|)
  {
    hide ValidToken, DigitsValue, AllDigits;
    TokenParts(token);
    var whole, fraction := Whole(token), FractionOf(token);
    var zeros := Zeros(6 - |fraction|);
    ZerosAreZero(|zeros|);
    DigitsValueSplits(whole, fraction);
    DigitsValueSplits(whole + fraction, zeros);
    DigitsValueSplits(whole, fraction + zeros);
    assert whole + fraction + zeros == whole + (fraction + zeros);
    Pow10Of6();
  }

  lemma Pow10Of6()
    ensures Pow10(6) == 1_000_000
  {
    assert Pow10(3) == 1_000;
  }

  // ----- millionths back to a token -----

  /** The low `k` decimal digits of `n`. */
  function LowDigits(n: nat, k: nat): (s: string)
    ensures |s| == k && AllDigits(s)
  {
    if k == 0 then [] else LowDigits(n / 10, k - 1) + [('0' as int + n % 10) as char]
  }

  /** The canonical six-place token. */
  function Fixed(n: nat): string { Digits(n / 1_000_000) + ("." + LowDigits(n % 1_000_000, 6)) }

  /** A token with its trailing zeros written out. */
  function Normal(token: string): string
    requires ValidToken(token)
  {
    Whole(token) + ("." + Filled(token))
  }

  lemma {:induction false} LowDigitsOfValue(s: string)
    requires AllDigits(s)
    ensures DigitsValue(s) < Pow10(|s|) && LowDigits(DigitsValue(s), |s|) == s
  {
    if s != [] {
      var front := s[..|s| - 1];
      LowDigitsOfValue(front);
      assert DigitsValue(s) / 10 == DigitsValue(front);
      assert s == front + [s[|s| - 1]];
    }
  }

  lemma {:induction false} ValueOfLowDigits(n: nat, k: nat)
    requires n < Pow10(k)
    ensures DigitsValue(LowDigits(n, k)) == n
  {
    if k > 0 {
      ValueOfLowDigits(n / 10, k - 1);
      assert LowDigits(n, k)[..k - 1] == LowDigits(n / 10, k - 1);
    }
  }

  lemma {:induction false} DigitsOfValue(s: string)
    requires AllDigits(s) && s != [] && (|s| > 1 ==> s[0] != '0')
    ensures Digits(DigitsValue(s)) == s
    ensures |s| > 1 ==> DigitsValue(s) >= 10
  {
    var front, last := s[..|s| - 1], DigitValue(s[|s| - 1]);
    if |s| == 1 {
      assert front == [] && s == [s[0]];
    } else {
      DigitsOfValue(front);
      if |front| == 1 {
        assert front[..0] == [] && DigitsValue(front) == DigitValue(front[0]);
      }
      assert DigitsValue(s) / 10 == DigitsValue(front) && DigitsValue(s) % 10 == last;
      assert s == front + [s[|s| - 1]];
    }
  }

  /** A token and its millionths determine each other up to trailing zeros. */
  lemma FixedOfMillionths(token: string)
    requires ValidToken(token)
    ensures Fixed(Millionths(token)) == Normal(token)
  {
    hide ValidToken, DigitsValue, Digits, LowDigits, AllDigits;
    TokenParts(token);
    DigitsOfValue(Whole(token));
    LowDigitsOfValue(Filled(token));
    Pow10Of6();
    var n := Millionths(token);
    assert n / 1_000_000 == DigitsValue(Whole(token)) && n % 1_000_000 == DigitsValue(Filled(token));
  }

  lemma MillionthsOfFixed(n: nat)
    requires n < 10_000_000_000_000_000
    ensures ValidToken(Fixed(n)) && Millionths(Fixed(n)) == n
  {
    hide DigitsValue, Digits, LowDigits;
    var token, whole, fraction := Fixed(n), Digits(n / 1_000_000), LowDigits(n % 1_000_000, 6);
    DigitsMean(n / 1_000_000);
    Pow10Of10();
    DigitsShort(n / 1_000_000, 10);
    assert token[..|whole|] == whole && token[|whole|] == '.' && token[|whole| + 1..] == fraction;
    SkipDigitsOver(token, 0, whole);
    Pow10Of6();
    ValueOfLowDigits(n % 1_000_000, 6);
    assert Filled(token) == fraction;
  }

  lemma Pow10Of10()
    ensures Pow10(10) == 10_000_000_000
  {
    assert Pow10(5) == 100_000;
  }

  /** Two tokens denote the same quantity exactly when they differ in trailing zeros only. */
  lemma SameMillionths(a: string, b: string)
    requires ValidToken(a) && ValidToken(b)
    ensures Millionths(a) == Millionths(b) <==> Normal(a) == Normal(b)
  {
    hide ValidToken, DigitsValue, SkipDigits;
    FixedOfMillionths(a);
    FixedOfMillionths(b);
    if Normal(a) == Normal(b) {
      TokenParts(a);
      TokenParts(b);
      assert Normal(a)[|Whole(a)|] == '.' && Normal(b)[|Whole(b)|] == '.';
      assert |Normal(a)| == |Whole(a)| + 7 && |Normal(b)| == |Whole(b)| + 7;
      assert Whole(a) == Normal(a)[..|Whole(a)|] && Whole(b) == Normal(b)[..|Whole(b)|];
      assert Filled(a) == Normal(a)[|Whole(a)| + 1..] && Filled(b) == Normal(b)[|Whole(b)| + 1..];
    }
  }
}
