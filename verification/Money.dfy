/**
 Minor-unit amounts and their decimal text. `exponent` is the number of minor-unit digits of the
 amount's currency.
 */
module Money {
  import opened Tables
  import opened Decimal

  function Sign(negative: bool): string { if negative then "-" else "" }

  function PadStart(s: string, width: nat): string { if |s| < width then Zeros(width - |s|) + s else s }

  function PadEnd(s: string, width: nat): string { if |s| < width then s + Zeros(width - |s|) else s }

  function Magnitude(minorUnits: int): nat { if minorUnits < 0 then -minorUnits else minorUnits }

  function Divided(a: nat, d: nat): (r: (nat, nat))
    requires 0 < d
    ensures r.1 < d && a == r.0 * d + r.1
  {
    (a / d, a % d)
  }

  /** Major units, and the minor units left over. */
  function Split(abs: nat, exponent: nat): (nat, nat) { Divided(abs, Pow10(exponent)) }

  function ToDecimalString(minorUnits: int, exponent: nat): string {
    var (whole, fraction) := Split(Magnitude(minorUnits), exponent);
    Sign(minorUnits < 0) + Print(whole) + "." + PadStart(Print(fraction), exponent)
  }

  function UpToDot(s: string): string {
    if s == "" || s[0] == '.' then "" else [s[0]] + UpToDot(s[1..])
  }

  /** The second part of a split on dots, empty when there is no dot; a third part is ignored. */
  function Fraction(s: string): string {
    if s == "" then "" else if s[0] == '.' then UpToDot(s[1..]) else Fraction(s[1..])
  }

  function Negated(value: string): bool { value != "" && value[0] == '-' }

  function Unsigned(value: string): string { if Negated(value) then value[1..] else value }

  function FromDecimalString(value: string, exponent: nat): Option<int> {
    var whole, fraction := UpToDot(Unsigned(value)), Fraction(Unsigned(value));
    if whole == "" || !AllDigits(whole) || !AllDigits(fraction) then None
    else if exponent < |fraction| then None
    else
      ParsePadEnd(fraction, exponent);
      var units := Parse(whole) * Pow10(exponent) + Parse(PadEnd(fraction, exponent));
      Some(if Negated(value) then -units else units)
  }

  lemma ParsePadStart(s: string, width: nat)
    requires AllDigits(s)
    ensures AllDigits(PadStart(s, width)) && Parse(PadStart(s, width)) == Parse(s)
  {
    if |s| < width {
      ParseZeros(width - |s|);
      ParseConcat(Zeros(width - |s|), s);
    }
  }

  lemma ParsePadEnd(s: string, width: nat)
    requires AllDigits(s) && |s| <= width
    ensures AllDigits(PadEnd(s, width)) && Parse(PadEnd(s, width)) == Parse(s) * Pow10(width - |s|)
  {
    if |s| < width {
      ParseZeros(width - |s|);
      ParseConcat(s, Zeros(width - |s|));
    }
  }

  // ----- Splitting on dots -----

  lemma {:induction false} SplitAtDot(digits: string, tail: string)
    requires AllDigits(digits) && (tail == "" || tail[0] == '.')
    ensures UpToDot(digits + tail) == digits
    ensures Fraction(digits + tail) == if tail == "" then "" else UpToDot(tail[1..])
  {
    if digits == "" {
      assert digits + tail == tail;
    } else {
      assert (digits + tail)[1..] == digits[1..] + tail;
      SplitAtDot(digits[1..], tail);
    }
  }

  lemma {:induction false} UpToDotIsPrefix(s: string)
    ensures UpToDot(s) <= s && (|UpToDot(s)| < |s| ==> s[|UpToDot(s)|] == '.')
  {
    if s != "" && s[0] != '.' {
      UpToDotIsPrefix(s[1..]);
    }
  }

  // ----- What is accepted, and what it denotes -----

  /** A sign, digits, and possibly a dot with up to `exponent` digits, after which another dot ends the reading. */
  datatype Written = Written(negative: bool, whole: string, dotted: bool, fraction: string, ignored: string)

  predicate WrittenOk(w: Written, exponent: nat) {
    && w.whole != "" && AllDigits(w.whole) && AllDigits(w.fraction) && |w.fraction| <= exponent
    && (!w.dotted ==> w.fraction == "" && w.ignored == "")
    && (w.ignored == "" || w.ignored[0] == '.')
  }

  function Spelling(w: Written): string {
    Sign(w.negative) + w.whole + (if w.dotted then "." + w.fraction + w.ignored else "")
  }

  function Denotes(w: Written, exponent: nat): int
    requires WrittenOk(w, exponent)
  {
    var units := Parse(w.whole) * Pow10(exponent) + Parse(w.fraction) * Pow10(exponent - |w.fraction|);
    if w.negative then -units else units
  }

  lemma UnsignedSpelling(w: Written, exponent: nat)
    requires WrittenOk(w, exponent)
    ensures Negated(Spelling(w)) == w.negative
    ensures Unsigned(Spelling(w)) == w.whole + (if w.dotted then "." + w.fraction + w.ignored else "")
  {
  }

  /** Every such spelling is accepted, and denotes whole plus fraction; what follows a second dot is dropped. */
  lemma SpellingIsRead(w: Written, exponent: nat)
    requires WrittenOk(w, exponent)
    ensures FromDecimalString(Spelling(w), exponent) == Some(Denotes(w, exponent))
  {
    hide Parse, Pow10, UpToDot, Fraction;
    var tail := if w.dotted then "." + w.fraction + w.ignored else "";
    UnsignedSpelling(w, exponent);
    SplitAtDot(w.whole, tail);
    if w.dotted {
      assert tail[1..] == w.fraction + w.ignored;
      SplitAtDot(w.fraction, w.ignored);
    }
    ParsePadEnd(w.fraction, exponent);
  }

  /** Cutting at the first dot loses nothing, and a fraction ends at the next dot. */
  lemma {:induction false} Decomposes(u: string) returns (dotted: bool, ignored: string)
    ensures u == UpToDot(u) + if dotted then "." + Fraction(u) + ignored else ""
    ensures ignored == "" || ignored[0] == '.'
    ensures !dotted ==> Fraction(u) == "" && ignored == ""
  {
    dotted, ignored := false, "";
    if u != "" {
      var rest := u[1..];
      if u[0] == '.' {
        UpToDotIsPrefix(rest);
        dotted, ignored := true, rest[|UpToDot(rest)|..];
        assert rest == UpToDot(rest) + ignored;
      } else {
        dotted, ignored := Decomposes(rest);
      }
      assert u == [u[0]] + rest;
    }
  }

  lemma AcceptedIsWritten(value: string, exponent: nat) returns (w: Written)
    requires FromDecimalString(value, exponent).Some?
    ensures WrittenOk(w, exponent) && Spelling(w) == value
  {
    hide Parse, Pow10, UpToDot, Fraction;
    var u := Unsigned(value);
    var dotted, ignored := Decomposes(u);
    w := Written(Negated(value), UpToDot(u), dotted, Fraction(u), ignored);
    assert value == Sign(Negated(value)) + u;
  }

  /** And nothing else is accepted. */
  lemma AcceptedIffWritten(value: string, exponent: nat)
    ensures FromDecimalString(value, exponent).Some? <==> exists w :: WrittenOk(w, exponent) && Spelling(w) == value
  {
    if FromDecimalString(value, exponent).Some? {
      var w := AcceptedIsWritten(value, exponent);
    }
    forall w | WrittenOk(w, exponent) && Spelling(w) == value
      ensures FromDecimalString(value, exponent).Some?
    {
      SpellingIsRead(w, exponent);
    }
  }

  // ----- Round trips -----

  function Printed(minorUnits: int, exponent: nat): Written {
    var (whole, fraction) := Split(Magnitude(minorUnits), exponent);
    Written(minorUnits < 0, Print(whole), true, PadStart(Print(fraction), exponent), "")
  }

  lemma PrintedSpells(minorUnits: int, exponent: nat)
    ensures Spelling(Printed(minorUnits, exponent)) == ToDecimalString(minorUnits, exponent)
  {
  }

  lemma PaddedFraction(n: nat, exponent: nat)
    requires 1 <= exponent && n < Pow10(exponent)
    ensures var f := PadStart(Print(n), exponent); AllDigits(f) && |f| == exponent && Parse(f) == n
  {
    PrintLength(n, exponent);
    ParsePadStart(Print(n), exponent);
    ParsePrint(n);
  }

  /** Reading back the printed form of any amount gives the amount, exactly when the currency has minor units. */
  lemma RoundTripIffMinorUnits(minorUnits: int, exponent: nat)
    ensures FromDecimalString(ToDecimalString(minorUnits, exponent), exponent) == Some(minorUnits) <==> 1 <= exponent
  {
    var w := Printed(minorUnits, exponent);
    var (whole, fraction) := Split(Magnitude(minorUnits), exponent);
    PrintedSpells(minorUnits, exponent);
    if 1 <= exponent {
      PaddedFraction(fraction, exponent);
      SpellingIsRead(w, exponent);
      ParsePrint(whole);
      assert Pow10(exponent - |w.fraction|) == 1;
    } else {
      assert w.fraction == Print(0);
      UnsignedSpelling(w, 1);
      SplitAtDot(w.whole, "." + w.fraction);
      assert "." + w.fraction + "" == "." + w.fraction;
      assert ("." + w.fraction)[1..] == w.fraction + "";
      SplitAtDot(w.fraction, "");
      assert Fraction(Unsigned(Spelling(w))) == "0";
    }
  }

  /** Two amounts of one currency never print alike. */
  lemma PrintingIsInjective(a: int, b: int, exponent: nat)
    requires 1 <= exponent && ToDecimalString(a, exponent) == ToDecimalString(b, exponent)
    ensures a == b
  {
    RoundTripIffMinorUnits(a, exponent);
    RoundTripIffMinorUnits(b, exponent);
  }

  /** Canonical: no sign on zero, no leading zeros, the fraction filled up, anything ignored gone. */
  function Canonical(w: Written, exponent: nat): string
    requires WrittenOk(w, exponent)
  {
    Sign(w.negative && Denotes(w, exponent) != 0) + Stripped(w.whole) + "." + PadEnd(w.fraction, exponent)
  }

  lemma {:induction false} AtLeastOneMore(a: nat, b: nat, d: nat)
    requires a < b
    ensures a * d + d <= b * d
    decreases b
  {
    if a + 1 < b {
      AtLeastOneMore(a, b - 1, d);
    }
  }

  lemma SplitIsUnique(whole: nat, fraction: nat, exponent: nat)
    requires fraction < Pow10(exponent)
    ensures Split(whole * Pow10(exponent) + fraction, exponent) == (whole, fraction)
  {
    var d := Pow10(exponent);
    var (q, r) := Split(whole * d + fraction, exponent);
    if q < whole {
      AtLeastOneMore(q, whole, d);
    } else if whole < q {
      AtLeastOneMore(whole, q, d);
    }
  }

  lemma PrintsAs(minorUnits: int, whole: nat, fraction: nat, exponent: nat)
    requires fraction < Pow10(exponent) && Magnitude(minorUnits) == whole * Pow10(exponent) + fraction
    ensures ToDecimalString(minorUnits, exponent) == Sign(minorUnits < 0) + Print(whole) + "."
            + PadStart(Print(fraction), exponent)
  {
    hide Pow10, Print;
    SplitIsUnique(whole, fraction, exponent);
  }

  lemma FractionPrintsBack(filled: string, exponent: nat)
    requires 1 <= exponent && AllDigits(filled) && |filled| == exponent
    ensures Parse(filled) < Pow10(exponent) && PadStart(Print(Parse(filled)), exponent) == filled
  {
    ParseBound(filled);
    PaddedFraction(Parse(filled), exponent);
    ParseInjective(PadStart(Print(Parse(filled)), exponent), filled);
  }

  /** Printing what was read gives the canonical spelling. */
  lemma PrintingReadIsCanonical(w: Written, exponent: nat)
    requires 1 <= exponent && WrittenOk(w, exponent)
    ensures ToDecimalString(Denotes(w, exponent), exponent) == Canonical(w, exponent)
  {
    hide Parse, Pow10, Print;
    var filled := PadEnd(w.fraction, exponent);
    ParsePadEnd(w.fraction, exponent);
    FractionPrintsBack(filled, exponent);
    var units := Parse(w.whole) * Pow10(exponent) + Parse(filled);
    assert Denotes(w, exponent) == if w.negative then -units else units;
    PrintsAs(Denotes(w, exponent), Parse(w.whole), Parse(filled), exponent);
    PrintParse(w.whole);
  }
}
