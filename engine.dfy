/** What each button computes, as functions of the display and the stored
    values. The class in module Calc applies them to its fields. */
module Engine {
  import opened Numerals
  import opened JavaInt

  /** The library calls the engine makes and whose results are not modelled:
      `Math.pow`, `Math.log`, `Math.sqrt`, the `DecimalFormat` used by "=",
      and `Double.toString` used by the other buttons. */
  datatype Library = Library(
    pow: (real, real) -> real,
    log: real -> real,
    sqrt: real -> real,
    decimalFormat: real -> string,
    doubleToString: real -> string)

  /** The outcome of an operation: a number, or a guarded error. */
  datatype Outcome = Value(value: real) | Error

  const ERROR: string := "ERROR"

  /** How a numeric result is shown: as an integer literal when it passes the
      source's `x == (int) x` test, otherwise by the given formatter. */
  function Show(x: real, format: real -> string): string {
    if IsWhole(x) then IntToString(IntCast(x)) else format(x)
  }

  function Render(o: Outcome, format: real -> string): string {
    match o
    case Error => ERROR
    case Value(x) => Show(x, format)
  }

  /** A whole result in the int range is shown as its canonical integer
      literal, and parsing that display gives the result back. */
  lemma ShowWhole(x: real, format: real -> string)
    requires x == x.Floor as real && InIntRange(x.Floor)
    ensures Show(x, format) == IntToString(x.Floor)
    ensures IsCanonicalInteger(Show(x, format)) && IsNumeral(Show(x, format))
    ensures NumeralValue(Show(x, format)) == x
  {
    WholeIff(x);
    var shown := IntToString(x.Floor);
    IntToStringValue(x.Floor);
    assert IsIntegerNumeral(shown);
    IntegerNumeralValue(shown);
  }

  /** An int result is shown as `Integer.toString` prints it. */
  lemma ShowInt(n: int, format: real -> string)
    requires InIntRange(n)
    ensures Show(n as real, format) == IntToString(n)
    ensures IsCanonicalInteger(Show(n as real, format)) && IsNumeral(Show(n as real, format))
    ensures NumeralValue(Show(n as real, format)) == n as real
  {
    ShowWhole(n as real, format);
  }

  // ---- digit and decimal-point entry ----

  /** Pressing a digit: a lone "0" is replaced, anything else is extended. */
  function EnterDigit(s: string, d: char): string {
    if s == "0" then [d] else s + [d]
  }

  /** On a display of digits (possibly empty), a digit key shifts the value
      one decimal place and adds the digit. */
  lemma DigitEntryValue(s: string, d: char)
    requires IsDigits(s) && IsDigit(d)
    ensures IsDigits(EnterDigit(s, d)) && |EnterDigit(s, d)| > 0
    ensures DigitsValue(EnterDigit(s, d)) == 10 * DigitsValue(s) + DigitValue(d)
  {
    if s == "0" {
      assert EnterDigit(s, d) == [] + [d];
      DigitsValueAppend([], d);
      DigitsValueAppend([], '0');
    } else {
      assert EnterDigit(s, d) == s + [d];
      DigitsValueAppend(s, d);
    }
  }

  lemma {:induction false} DotIndexAppend(t: string, c: char)
    requires c != '.'
    ensures DotIndex(t + [c]) == if DotIndex(t) < |t| then DotIndex(t) else |t| + 1
  {
    if t != [] && t[0] != '.' {
      assert (t + [c])[1..] == t[1..] + [c];
      DotIndexAppend(t[1..], c);
    }
  }

  /** A digit appended to digits with at most one '.' (or to a lone '.')
      gives digits with at most one '.' and at least one digit. */
  lemma DecimalAppendDigit(t: string, d: char)
    requires IsDecimal(t) || t == "."
    requires IsDigit(d)
    ensures IsDecimal(t + [d])
  {
    DotIndexAppend(t, d);
    var k := DotIndex(t);
    if k < |t| {
      assert (t + [d])[..k] == t[..k];
      assert (t + [d])[k + 1..] == t[k + 1..] + [d];
    } else {
      assert (t + [d])[..|t| + 1] == t + [d];
    }
  }

  /** Digit entry keeps a numeral a numeral; from the empty display (after an
      operator) and from "." it makes one. */
  lemma DigitEntryKeepsNumeral(s: string, d: char)
    requires IsNumeral(s) || s == "" || s == "."
    requires IsDigit(d)
    ensures IsNumeral(EnterDigit(s, d))
  {
    var r := EnterDigit(s, d);
    if s == "0" || s == "" {
      assert r == [d] && Magnitude(r) == [d];
      assert DotIndex([d]) == 1;
      assert r[..1] == [d];
    } else {
      var t := Magnitude(s);
      assert Magnitude(r) == t + [d] by {
        if IsNegative(s) {
          assert r == "-" + (t + [d]);
        }
      }
      DecimalAppendDigit(t, d);
    }
  }

  /** Pressing '.': appended only when the display has no '.' yet. */
  function WithPoint(s: string): string {
    if '.' in s then s else s + "."
  }

  /** Pressing '.' twice does what pressing it once does; afterwards the
      display holds a '.', and at most one if it held at most one before. */
  lemma PointIdempotent(s: string)
    ensures WithPoint(WithPoint(s)) == WithPoint(s)
    ensures '.' in WithPoint(s)
    ensures multiset(s)['.'] <= 1 ==> multiset(WithPoint(s))['.'] == 1
  {
    if '.' !in s {
      assert multiset(s + ".") == multiset(s) + multiset{'.'};
    }
  }

  /** '.' on an integer numeral gives a numeral with the same value. */
  lemma PointKeepsValue(s: string)
    requires IsIntegerNumeral(s)
    ensures IsNumeral(WithPoint(s))
    ensures NumeralValue(WithPoint(s)) == NumeralValue(s)
  {
    var t := Magnitude(s);
    var r := WithPoint(s);
    assert '.' !in s;
    NoDotInDigits(t);
    assert Magnitude(r) == t + ".";
    assert DotIndex(t + ".") == |t| by {
      var k := DotIndex(t + ".");
      assert (t + ".")[|t|] == '.';
      assert forall j :: 0 <= j < |t| ==> (t + ".")[j] == t[j];
    }
    assert (t + ".")[..|t|] == t;
    assert (t + ".")[|t| + 1..] == "";
    IntegerNumeralValue(s);
  }

  // ---- sign ----

  /** The display after "-/+": the parsed value negated, shown by
      `Double.toString` unless it is whole. */
  function SignToggled(s: string, format: real -> string): string
    requires IsNumeral(s)
  {
    Show(-NumeralValue(s), format)
  }

  /** "-/+" on an integer display whose negation is an int shows the
      negation as `Integer.toString` prints it. */
  lemma SignToggledInteger(s: string, format: real -> string)
    requires IsIntegerNumeral(s) && InIntRange(-IntegerValue(s))
    ensures SignToggled(s, format) == IntToString(-IntegerValue(s))
    ensures IsIntegerNumeral(SignToggled(s, format))
    ensures IntegerValue(SignToggled(s, format)) == -IntegerValue(s)
  {
    var v := IntegerValue(s);
    IntegerNumeralValue(s);
    ShowInt(-v, format);
    assert SignToggled(s, format) == IntToString(-v);
    IntToStringValue(-v);
  }

  /** Toggling the sign twice restores a canonical integer display whose
      negation stays in the int range. */
  lemma SignToggleTwice(s: string, format: real -> string)
    requires IsCanonicalInteger(s) && INT_MIN < IntegerValue(s) <= INT_MAX
    ensures IsNumeral(SignToggled(s, format))
    ensures SignToggled(SignToggled(s, format), format) == s
  {
    var v := IntegerValue(s);
    SignToggledInteger(s, format);
    var once := SignToggled(s, format);
    assert IntegerValue(once) == -v;
    SignToggledInteger(once, format);
    assert SignToggled(once, format) == IntToString(v);
    CanonicalRoundTrip(s);
  }

  // ---- the binary operators of "=" ----

  /** The operators the switch of "=" knows. */
  predicate IsKnownOperator(op: string) {
    op == "+" || op == "-" || op == "*" || op == "x^y" || op == "/"
  }

  /** "=" applied to the stored operator, the stored first operand and the
      second operand. It fails exactly on division by zero and on a negative
      base with an exponent that is not whole; "+" and "-" are undone by the
      second operand, and an operator the
      switch does not know gives 0. */
  function Evaluate(op: string, first: real, second: real, pow: (real, real) -> real): (r: Outcome)
    ensures r.Error? <==> (op == "/" && second == 0.0) || (op == "x^y" && first < 0.0 && !IsWhole(second))
    ensures op == "+" ==> r.Value? && r.value - second == first
    ensures op == "-" ==> r.Value? && r.value + second == first
    ensures op == "*" ==> r == Value(first * second)
    ensures op == "x^y" && r.Value? ==> r.value == pow(first, second)
    ensures !IsKnownOperator(op) ==> r == Value(0.0)
  {
    if op == "+" then Value(first + second)
    else if op == "-" then Value(first - second)
    else if op == "*" then Value(first * second)
    else if op == "x^y" then
      if first < 0.0 && !IsWhole(second) then Error else Value(pow(first, second))
    else if op == "/" then
      if second == 0.0 then Error else Value(first / second)
    else Value(0.0)
  }

  /** A quotient "=" shows, multiplied back by the second operand, gives the
      first operand. */
  lemma DivisionUndone(first: real, second: real, pow: (real, real) -> real)
    requires second != 0.0
    ensures Evaluate("/", first, second, pow).Value?
    ensures Evaluate("/", first, second, pow).value * second == first
  {
  }

  /** "=" shows "ERROR" on division by zero and on a negative base with an
      exponent that is not whole. */
  lemma EqualsError(op: string, first: real, second: real, lib: Library)
    requires (op == "/" && second == 0.0) || (op == "x^y" && first < 0.0 && !IsWhole(second))
    ensures Render(Evaluate(op, first, second, lib.pow), lib.decimalFormat) == ERROR
  {
    assert Evaluate(op, first, second, lib.pow).Error?;
  }

  /** A whole result of "=" in the int range is shown as a numeral that parses
      back to it; as "=" keeps the operator and the first operand, pressing
      "=" again applies the same operation to that result. */
  lemma EqualsResultReparses(op: string, first: real, second: real, lib: Library)
    requires Evaluate(op, first, second, lib.pow).Value?
    requires var r := Evaluate(op, first, second, lib.pow).value;
      r == r.Floor as real && InIntRange(r.Floor)
    ensures var shown := Render(Evaluate(op, first, second, lib.pow), lib.decimalFormat);
      IsNumeral(shown) && NumeralValue(shown) == Evaluate(op, first, second, lib.pow).value
  {
    ShowWhole(Evaluate(op, first, second, lib.pow).value, lib.decimalFormat);
  }

  /** With no operator stored, "=" shows "0". */
  lemma EqualsWithoutOperator(op: string, first: real, second: real, lib: Library)
    requires !IsKnownOperator(op)
    ensures Render(Evaluate(op, first, second, lib.pow), lib.decimalFormat) == "0"
  {
    ShowWhole(0.0, lib.decimalFormat);
  }

  // ---- the unary scientific buttons ----

  function ReciprocalOf(v: real): (r: Outcome)
    ensures r.Error? <==> v == 0.0
    ensures r.Value? ==> r.value * v == 1.0
  {
    if v == 0.0 then Error else Value(1.0 / v)
  }

  function LogOf(v: real, log: real -> real): (r: Outcome)
    ensures r.Error? <==> v <= 0.0
    ensures r.Value? ==> r.value == log(v)
  {
    if v <= 0.0 then Error else Value(log(v))
  }

  function SqrtOf(v: real, sqrt: real -> real): (r: Outcome)
    ensures r.Error? <==> v < 0.0
    ensures r.Value? ==> r.value == sqrt(v)
  {
    if v < 0.0 then Error else Value(sqrt(v))
  }

  // ---- factorial ----

  function Fact(n: nat): (r: nat)
    ensures r >= 1
  {
    if n == 0 then 1 else n * Fact(n - 1)
  }

  lemma {:induction false} FactMonotone(m: nat, n: nat)
    requires m <= n
    ensures Fact(m) <= Fact(n)
  {
    if m < n {
      FactMonotone(m, n - 1);
      assert Fact(n) == n * Fact(n - 1) >= Fact(n - 1);
    }
  }

  /** Within the button's range [0, 10] every factorial fits in an int, so the
      source's `int` loop never wraps. */
  lemma FactorialFits(n: nat)
    requires n <= 10
    ensures Fact(n) <= 3628800 && InIntRange(Fact(n))
  {
    FactMonotone(n, 10);
    assert Fact(10) == 3628800;
  }

  /** The display after "x!" on an integer display of value n. */
  function FactorialDisplay(n: int): (r: string)
    ensures n < 0 || n > 10 ==> r == ERROR
    ensures 0 <= n <= 10 ==> IsCanonicalInteger(r) && IntegerValue(r) == Fact(n)
  {
    if n < 0 || n > 10 then ERROR
    else
      IntToStringValue(Fact(n));
      IntToString(Fact(n))
  }
}
