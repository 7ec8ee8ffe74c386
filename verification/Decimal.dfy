/** Decimal text of natural numbers. */
module Decimal {
  predicate IsDigit(c: char) { '0' <= c <= '9' }

  predicate AllDigits(s: string) { forall i :: 0 <= i < |s| ==> IsDigit(s[i]) }

  function DigitOf(d: nat): (c: char)
    requires d < 10
    ensures IsDigit(c) && ValueOf(c) == d
  {
    ('0' as int + d) as char
  }

  function ValueOf(c: char): (d: nat)
    requires IsDigit(c)
    ensures d < 10
  {
    c as int - '0' as int
  }

  function Print(n: nat): (s: string)
    ensures 0 < |s| && AllDigits(s)
    ensures |s| > 1 ==> s[0] != '0'
  {
    if n < 10 then [DigitOf(n)] else Print(n / 10) + [DigitOf(n % 10)]
  }

  /** The number a digit string denotes; leading zeros and the empty string are allowed. */
  function Parse(s: string): nat
    requires AllDigits(s)
  {
    if s == [] then 0 else 10 * Parse(s[..|s| - 1]) + ValueOf(s[|s| - 1])
  }

  function Pow10(k: nat): (p: nat)
    ensures 0 < p
  {
    if k == 0 then 1 else 10 * Pow10(k - 1)
  }

  function Zeros(k: nat): (s: string)
    ensures |s| == k && forall i :: 0 <= i < k ==> s[i] == '0'
  {
    seq(k, i => '0')
  }

  /** Without leading zeros, but never empty. */
  function Stripped(s: string): string
    requires s != ""
  {
    if s[0] == '0' && |s| > 1 then Stripped(s[1..]) else s
  }

  lemma {:induction false} ParsePrint(n: nat)
    ensures Parse(Print(n)) == n
  {
    if n >= 10 {
      ParsePrint(n / 10);
      assert Print(n)[..|Print(n)| - 1] == Print(n / 10);
    }
  }

  lemma {:induction false} ParseConcat(a: string, b: string)
    requires AllDigits(a) && AllDigits(b)
    ensures AllDigits(a + b) && Parse(a + b) == Parse(a) * Pow10(|b|) + Parse(b)
  {
    if b == "" {
      assert a + b == a;
    } else {
      var n := |b| - 1;
      ParseConcat(a, b[..n]);
      assert (a + b)[..|a + b| - 1] == a + b[..n];
      assert Parse(a) * Pow10(|b|) == 10 * (Parse(a) * Pow10(n));
    }
  }

  lemma {:induction false} ParseZeros(k: nat)
    ensures AllDigits(Zeros(k)) && Parse(Zeros(k)) == 0
  {
    if k > 0 {
      ParseZeros(k - 1);
      assert Zeros(k)[..k - 1] == Zeros(k - 1);
    }
  }

  lemma {:induction false} ParseBound(s: string)
    requires AllDigits(s)
    ensures Parse(s) < Pow10(|s|)
  {
    if s != "" {
      ParseBound(s[..|s| - 1]);
    }
  }

  /** Digit strings of one length are told apart by their number. */
  lemma {:induction false} ParseInjective(a: string, b: string)
    requires AllDigits(a) && AllDigits(b) && |a| == |b| && Parse(a) == Parse(b)
    ensures a == b
  {
    if a != "" {
      var n := |a| - 1;
      ParseInjective(a[..n], b[..n]);
      assert a == a[..n] + [a[n]] && b == b[..n] + [b[n]];
      assert DigitOf(ValueOf(a[n])) == a[n] && DigitOf(ValueOf(b[n])) == b[n];
    }
  }

  lemma {:induction false} ParseStripped(s: string)
    requires AllDigits(s) && s != ""
    ensures AllDigits(Stripped(s)) && Parse(Stripped(s)) == Parse(s)
    ensures |Stripped(s)| > 1 ==> Stripped(s)[0] != '0'
  {
    if s[0] == '0' && |s| > 1 {
      ParseConcat([s[0]], s[1..]);
      assert s == [s[0]] + s[1..];
      assert Parse([s[0]]) == 0;
      ParseStripped(s[1..]);
    }
  }

  /** A number needs as many digits as powers of ten it reaches. */
  lemma {:induction false} PrintLength(n: nat, k: nat)
    requires 0 < k
    ensures |Print(n)| <= k <==> n < Pow10(k)
  {
    if k == 1 {
      assert Pow10(1) == 10 * Pow10(0);
    } else if n >= 10 {
      PrintLength(n / 10, k - 1);
    } else {
      Pow10AtLeast(k);
    }
  }

  lemma {:induction false} Pow10AtLeast(k: nat)
    requires 1 <= k
    ensures 10 <= Pow10(k)
  {
  }

  /** Printing what a digit string denotes drops its leading zeros and changes nothing else. */
  lemma PrintParse(s: string)
    requires AllDigits(s) && s != ""
    ensures Print(Parse(s)) == Stripped(s)
  {
    ParseStripped(s);
    CanonicalIsPrinted(Stripped(s));
  }

  lemma {:induction false} LeadingDigitCounts(s: string)
    requires AllDigits(s) && s != "" && s[0] != '0'
    ensures 0 < Parse(s)
  {
    if |s| > 1 {
      LeadingDigitCounts(s[..|s| - 1]);
    }
  }

  lemma {:induction false} CanonicalIsPrinted(s: string)
    requires AllDigits(s) && s != "" && (|s| > 1 ==> s[0] != '0')
    ensures Print(Parse(s)) == s
  {
    var n := |s| - 1;
    assert s == s[..n] + [s[n]];
    if n > 0 {
      CanonicalIsPrinted(s[..n]);
      LeadingDigitCounts(s[..n]);
      assert DigitOf(ValueOf(s[n])) == s[n];
    } else {
      assert Parse(s[..0]) == 0;
      assert DigitOf(ValueOf(s[0])) == s[0];
    }
  }
}
