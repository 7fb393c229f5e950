/** Decimal numerals as the calculator's display shows them, and the numbers
    they denote. A display the engine parses is a numeral: an optional
    leading '-', then digits with at most one '.', and at least one digit. */
module Numerals {

  const INT_MIN: int := -0x8000_0000
  const INT_MAX: int := 0x7FFF_FFFF

  /** The range of a Java `int`. */
  predicate InIntRange(n: int) {
    INT_MIN <= n <= INT_MAX
  }

  predicate IsDigit(c: char) {
    '0' <= c <= '9'
  }

  function DigitValue(c: char): (d: nat)
    requires IsDigit(c)
    ensures d < 10
  {
    (c as int) - ('0' as int)
  }

  function DigitChar(d: nat): (c: char)
    requires d < 10
    ensures IsDigit(c) && DigitValue(c) == d
  {
    ('0' as int + d) as char
  }

  predicate IsDigits(s: string) {
    forall i :: 0 <= i < |s| ==> IsDigit(s[i])
  }

  /** The number a string of decimal digits denotes (most significant first). */
  function DigitsValue(s: string): nat
    requires IsDigits(s)
  {
    if s == [] then 0 else 10 * DigitsValue(s[..|s| - 1]) + DigitValue(s[|s| - 1])
  }

  /** The number the digits after a decimal point denote: d1 d2 ... dn
      stands for d1/10 + d2/100 + ... + dn/10^n. */
  function FractionValue(f: string): (r: real)
    requires IsDigits(f)
    ensures 0.0 <= r < 1.0
  {
    if f == [] then 0.0 else (DigitValue(f[0]) as real + FractionValue(f[1..])) / 10.0
  }

  predicate IsNegative(s: string) {
    |s| > 0 && s[0] == '-'
  }

  /** The numeral without its sign. */
  function Magnitude(s: string): (t: string)
    ensures IsNegative(s) ==> s == "-" + t
    ensures !IsNegative(s) ==> s == t
  {
    if IsNegative(s) then s[1..] else s
  }

  /** The index of the first '.' in s, or |s| when there is none. */
  function DotIndex(s: string): (k: nat)
    ensures k <= |s|
    ensures k < |s| ==> s[k] == '.'
    ensures forall j :: 0 <= j < k ==> s[j] != '.'
  {
    if s == [] || s[0] == '.' then 0 else 1 + DotIndex(s[1..])
  }

  /** Digits with at most one '.', and at least one digit. */
  predicate IsDecimal(t: string) {
    var k := DotIndex(t);
    IsDigits(t[..k]) &&
    (k < |t| ==> IsDigits(t[k + 1..])) &&
    |t| > (if k < |t| then 1 else 0)
  }

  predicate IsNumeral(s: string) {
    IsDecimal(Magnitude(s))
  }

  /** The value `Double.parseDouble` gives a numeral, over the reals. */
  function NumeralValue(s: string): real
    requires IsNumeral(s)
  {
    var t := Magnitude(s);
    var k := DotIndex(t);
    var whole := DigitsValue(t[..k]) as real;
    var frac := if k < |t| then FractionValue(t[k + 1..]) else 0.0;
    if IsNegative(s) then -(whole + frac) else whole + frac
  }

  /** A numeral without a '.', the form `Integer.parseInt` accepts. */
  predicate IsIntegerNumeral(s: string)
    ensures IsIntegerNumeral(s) ==> IsNumeral(s)
  {
    var t := Magnitude(s);
    if |t| > 0 && IsDigits(t) then NoDotInDigits(t); true else false
  }

  function IntegerValue(s: string): int
    requires IsIntegerNumeral(s)
  {
    var v: int := DigitsValue(Magnitude(s));
    if IsNegative(s) then -v else v
  }

  /** The form `Integer.toString` gives: no leading zero, and no "-0". */
  predicate IsCanonicalInteger(s: string) {
    IsIntegerNumeral(s) &&
    var t := Magnitude(s);
    t[0] != '0' || (t == "0" && !IsNegative(s))
  }

  function NatToString(n: nat): string {
    if n < 10 then [DigitChar(n)] else NatToString(n / 10) + [DigitChar(n % 10)]
  }

  /** `Integer.toString` / `String.valueOf` of an int. */
  function IntToString(n: int): string {
    if n < 0 then "-" + NatToString(-n) else NatToString(n)
  }

  lemma NoDotInDigits(t: string)
    requires IsDigits(t)
    ensures DotIndex(t) == |t|
  {
  }

  /** An integer numeral denotes the same number to both parsers. */
  lemma IntegerNumeralValue(s: string)
    requires IsIntegerNumeral(s)
    ensures NumeralValue(s) == IntegerValue(s) as real
  {
    NoDotInDigits(Magnitude(s));
    assert Magnitude(s)[..|Magnitude(s)|] == Magnitude(s);
  }

  lemma DigitsValueAppend(s: string, c: char)
    requires IsDigits(s) && IsDigit(c)
    ensures IsDigits(s + [c])
    ensures DigitsValue(s + [c]) == 10 * DigitsValue(s) + DigitValue(c)
  {
    assert (s + [c])[..|s|] == s;
  }

  lemma {:induction false} NatToStringDigits(n: nat)
    ensures |NatToString(n)| > 0 && IsDigits(NatToString(n))
    ensures DigitsValue(NatToString(n)) == n
    ensures NatToString(n)[0] != '0' || n == 0
  {
    if n >= 10 {
      NatToStringDigits(n / 10);
      DigitsValueAppend(NatToString(n / 10), DigitChar(n % 10));
    }
  }

  /** Parsing what `Integer.toString` prints gives the number back. */
  lemma IntToStringValue(n: int)
    ensures IsCanonicalInteger(IntToString(n)) && IsIntegerNumeral(IntToString(n))
    ensures IntegerValue(IntToString(n)) == n
  {
    NatToStringDigits(if n < 0 then -n else n);
    if n < 0 {
      assert Magnitude(IntToString(n)) == NatToString(-n);
    }
  }

  lemma {:induction false} LeadingDigitPositive(t: string)
    requires |t| > 0 && IsDigits(t) && t[0] != '0'
    ensures DigitsValue(t) > 0
  {
    if |t| > 1 {
      LeadingDigitPositive(t[..|t| - 1]);
    }
  }

  /** Printing a number of two or more digits prints its last digit after
      the rest. */
  lemma NatToStringAppend(q: nat, d: nat)
    requires q > 0 && d < 10
    ensures NatToString(10 * q + d) == NatToString(q) + [DigitChar(d)]
  {
    var v := 10 * q + d;
    assert v / 10 == q && v % 10 == d;
  }

  lemma {:induction false} DigitsRoundTrip(t: string)
    requires |t| > 0 && IsDigits(t)
    requires t[0] != '0' || t == "0"
    ensures NatToString(DigitsValue(t)) == t
  {
    var p, c := t[..|t| - 1], t[|t| - 1];
    assert t == p + [c];
    assert DigitChar(DigitValue(c)) == c;
    if p != [] {
      assert p[0] == t[0];
      LeadingDigitPositive(p);
      DigitsRoundTrip(p);
      assert DigitsValue(t) == 10 * DigitsValue(p) + DigitValue(c);
      NatToStringAppend(DigitsValue(p), DigitValue(c));
    }
  }

  /** Printing the value of a canonical integer numeral gives the numeral back. */
  lemma CanonicalRoundTrip(s: string)
    requires IsCanonicalInteger(s)
    ensures IntToString(IntegerValue(s)) == s
  {
    var t := Magnitude(s);
    DigitsRoundTrip(t);
    if IsNegative(s) {
      LeadingDigitPositive(t);
    }
  }

  /** A one-digit display is a canonical integer numeral denoting its digit. */
  lemma SingleDigit(d: char)
    requires IsDigit(d)
    ensures IsCanonicalInteger([d])
    ensures IntegerValue([d]) == DigitValue(d)
    ensures NumeralValue([d]) == DigitValue(d) as real
  {
    assert [d] == [] + [d];
    DigitsValueAppend([], d);
    assert Magnitude([d]) == [d];
    IntegerNumeralValue([d]);
  }

  /** Digits never hold the first '.': it lies after them. */
  lemma {:induction false} DotIndexAfterDigits(w: string, r: string)
    requires IsDigits(w)
    ensures DotIndex(w + r) == |w| + DotIndex(r)
  {
    if w == [] {
      assert w + r == r;
    } else {
      assert (w + r)[0] == w[0];
      assert (w + r)[1..] == w[1..] + r;
      DotIndexAfterDigits(w[1..], r);
    }
  }

  /** The parts of a literal `w.f`: no sign, the first '.' right after w. */
  lemma DecimalLiteralShape(w: string, f: string)
    requires IsDigits(w)
    ensures var t := w + "." + f;
      && !IsNegative(t) && Magnitude(t) == t && DotIndex(t) == |w|
      && t[..|w|] == w && t[|w| + 1..] == f
  {
    var t := w + "." + f;
    assert t == w + ("." + f);
    if |w| > 0 { assert t[0] == w[0]; } else { assert t[0] == '.'; }
    DotIndexAfterDigits(w, "." + f);
    assert DotIndex("." + f) == 0;
    assert t[..|w|] == w;
    assert t[|w| + 1..] == f;
  }

  /** A literal with a '.' denotes its whole part plus its fraction. */
  lemma DecimalLiteralValue(w: string, f: string)
    requires IsDigits(w) && IsDigits(f) && |w| + |f| > 0
    ensures IsNumeral(w + "." + f)
    ensures NumeralValue(w + "." + f) == DigitsValue(w) as real + FractionValue(f)
  {
    DecimalLiteralShape(w, f);
    var t := w + "." + f;
    assert IsDecimal(t);
  }
}
