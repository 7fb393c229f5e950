/** Button sequences and what the display shows after them, derived from the
    contracts of the calculator's handlers. */
module Scenarios {
  import opened Numerals
  import opened JavaInt
  import opened Engine
  import opened Calc

  /** 5 + 3 = : the operator clears the display, "=" shows 8. */
  method AddFiveAndThree(lib: Library) returns (afterPlus: string, shown: string)
    ensures afterPlus == "" && shown == "8"
  {
    var c := FivePlus(lib);
    afterPlus := c.display;
    SingleDigit('3');
    ShowInt(8, lib.decimalFormat);
    assert IntToString(8) == "8";
    c.EnterNumber('3');
    assert c.display == "3";
    assert Evaluate("+", 5.0, 3.0, lib.pow) == Value(8.0);
    c.Operation("=");
    shown := c.display;
  }

  /** 5 + : the operation listener holds 5 and "+", and the display is
      cleared. */
  method FivePlus(lib: Library) returns (c: Calculator)
    ensures fresh(c) && c.lib == lib
    ensures c.firstOperand == 5.0 && c.operator == "+" && c.display == ""
  {
    SingleDigit('5');
    c := new Calculator(lib, "");
    c.EnterNumber('5');
    assert c.display == "5";
    c.Operation("+");
  }

  /** 2 * 3 = = : "=" keeps the operator and the first operand, so the second
      "=" computes 2 * 6 from the shown 6. */
  method ChainedEquals(lib: Library) returns (first: string, second: string)
    ensures first == "6" && second == "12"
  {
    var c := TwoTimesThree(lib);
    first := c.display;
    ShowInt(12, lib.decimalFormat);
    assert IntToString(12) == "12";
    assert Evaluate("*", 2.0, 6.0, lib.pow) == Value(12.0);
    c.Operation("=");
    second := c.display;
  }

  /** 2 * 3 = : the display shows "6", which denotes 6, and the operation
      listener still holds 2 and "*". */
  method TwoTimesThree(lib: Library) returns (c: Calculator)
    ensures fresh(c) && c.lib == lib
    ensures c.firstOperand == 2.0 && c.operator == "*" && c.display == "6"
    ensures IsNumeral(c.display) && NumeralValue(c.display) == 6.0
  {
    SingleDigit('3');
    ShowInt(6, lib.decimalFormat);
    assert IntToString(6) == "6";
    c := TwoTimes(lib);
    c.EnterNumber('3');
    assert c.display == "3";
    assert Evaluate("*", 2.0, 3.0, lib.pow) == Value(6.0);
    c.Operation("=");
  }

  /** 2 * : the operation listener holds 2 and "*", and the display is
      cleared. */
  method TwoTimes(lib: Library) returns (c: Calculator)
    ensures fresh(c) && c.lib == lib
    ensures c.firstOperand == 2.0 && c.operator == "*" && c.display == ""
  {
    SingleDigit('2');
    c := new Calculator(lib, "");
    c.EnterNumber('2');
    assert c.display == "2";
    c.Operation("*");
  }

  /** 6 / 0 = shows ERROR and leaves the stored operand, operator and memory. */
  method DivideByZero(lib: Library) returns (shown: string, operand: real, op: string, memory: real)
    ensures shown == "ERROR" && operand == 6.0 && op == "/" && memory == 0.0
  {
    SingleDigit('6');
    SingleDigit('0');
    var c := new Calculator(lib, "");
    c.EnterNumber('6');
    assert c.display == "6";
    c.Operation("/");
    c.EnterNumber('0');
    assert c.display == "0";
    c.Operation("=");
    shown, operand, op, memory := c.display, c.firstOperand, c.operator, c.memory;
  }

  /** -4 x^y 0.5 = shows ERROR. */
  method NegativeBaseFractionalExponent(lib: Library) returns (shown: string)
    ensures shown == "ERROR"
  {
    var c := MinusFourToThePower(lib);
    TypeHalf(c);
    HalfNumeral(c.display);
    assert Evaluate("x^y", -4.0, 0.5, lib.pow) == Error;
    c.Operation("=");
    shown := c.display;
  }

  /** 0 . 5 typed on the display cleared by an operator key shows "0.5". */
  method TypeHalf(c: Calculator)
    requires c.display == ""
    modifies c`display
    ensures c.display == "0.5"
  {
    c.EnterNumber('0');
    assert c.display == "0";
    c.EnterDecimal();
    assert c.display == "0.";
    c.EnterNumber('5');
  }

  /** 4 -/+ x^y : the operation listener holds -4 and "x^y", and the display
      is cleared. */
  method MinusFourToThePower(lib: Library) returns (c: Calculator)
    ensures fresh(c) && c.lib == lib
    ensures c.firstOperand == -4.0 && c.operator == "x^y" && c.display == ""
  {
    MinusFour(lib.doubleToString);
    c := new Calculator(lib, "");
    c.EnterNumber('4');
    assert c.display == "4";
    c.ToggleSign();
    assert c.display == "-4";
    c.Operation("x^y");
  }

  /** "-/+" on "4" shows "-4", which denotes -4. */
  lemma MinusFour(format: real -> string)
    ensures IsNumeral("4") && SignToggled("4", format) == "-4"
    ensures IsNumeral("-4") && NumeralValue("-4") == -4.0
  {
    SingleDigit('4');
    ShowInt(-4, format);
    assert IntToString(-4) == "-4";
  }

  /** A display "0.5" denotes one half, which is not whole. */
  lemma HalfNumeral(h: string)
    requires h == "0.5"
    ensures IsNumeral(h) && NumeralValue(h) == 0.5 && !IsWhole(0.5)
  {
    var w, f := "0", "5";
    assert DigitsValue(w) == 0 && FractionValue(f) == 0.5;
    DecimalLiteralValue(w, f);
    assert w + "." + f == h;
    assert IntCast(0.5) == 0;
  }

  /** 7 -/+ shows -7, and -/+ again shows 7. */
  method ToggleSevenTwice(lib: Library) returns (once: string, twice: string)
    ensures once == "-7" && twice == "7"
  {
    var c := new Calculator(lib, "");
    c.EnterNumber('7');
    SingleDigit('7');
    SignToggleTwice("7", lib.doubleToString);
    c.ToggleSign();
    ShowInt(-7, lib.doubleToString);
    assert IntToString(-7) == "-7";
    once := c.display;
    c.ToggleSign();
    twice := c.display;
  }

  /** x! on 11 shows ERROR, on 5 shows 120 and on 0 shows 1. */
  method Factorials(lib: Library) returns (eleven: string, five: string, zero: string)
    ensures eleven == "ERROR" && five == "120" && zero == "1"
  {
    FactorialsShown();
    var c := new Calculator(lib, "");
    c.EnterNumber('1');
    c.EnterNumber('1');
    assert c.display == "11";
    c.Factorial();
    eleven := c.display;
    c.AllClear();
    c.EnterNumber('5');
    assert c.display == "5";
    c.Factorial();
    five := c.display;
    c.AllClear();
    c.Factorial();
    zero := c.display;
  }

  /** The displays "11", "5" and "0" are int literals, and "x!" turns them
      into "ERROR", "120" and "1". */
  lemma FactorialsShown()
    ensures IsIntegerNumeral("11") && IntegerValue("11") == 11 && FactorialDisplay(11) == ERROR
    ensures IsIntegerNumeral("5") && IntegerValue("5") == 5 && FactorialDisplay(5) == "120"
    ensures IsIntegerNumeral("0") && IntegerValue("0") == 0 && FactorialDisplay(0) == "1"
  {
    DigitEntryValue("1", '1');
    assert EnterDigit("1", '1') == "11";
    assert Magnitude("11") == "11";
    SingleDigit('5');
    SingleDigit('0');
    assert Fact(5) == 120;
    assert IntToString(120) == "120";
    assert IntToString(1) == "1";
  }

  /** MC, M+ with 5 shown, M+ with 3 shown, MR: the display reads 8. */
  method MemorySum(lib: Library) returns (shown: string)
    ensures shown == "8"
  {
    var c := new Calculator(lib, "");
    c.MemoryClear();
    c.EnterNumber('5');
    SingleDigit('5');
    c.MemoryAdd();
    c.AllClear();
    c.EnterNumber('3');
    SingleDigit('3');
    c.MemoryAdd();
    assert c.memory == 8.0;
    c.MemoryRecall();
    ShowInt(8, lib.doubleToString);
    assert IntToString(8) == "8";
    shown := c.display;
  }

  /** 1/x of 0, log of 0 and the square root of -4 each show ERROR. */
  method DomainErrors(lib: Library) returns (reciprocal: string, log: string, sqrt: string)
    ensures reciprocal == "ERROR" && log == "ERROR" && sqrt == "ERROR"
  {
    var c := new Calculator(lib, "");
    SingleDigit('0');
    c.Reciprocal();
    reciprocal := c.display;
    c.AllClear();
    c.Log();
    log := c.display;
    c.AllClear();
    c.EnterNumber('4');
    SingleDigit('4');
    c.ToggleSign();
    ShowInt(-4, lib.doubleToString);
    c.SquareRoot();
    sqrt := c.display;
  }

  /** M+ then M- on the same display leaves the memory as it was; AC then
      clears the display and keeps the memory. */
  method AddThenSubtract(c: Calculator)
    requires IsNumeral(c.display)
    modifies c
    ensures c.memory == old(c.memory) && c.display == "0"
    ensures c.firstOperand == old(c.firstOperand) && c.operator == old(c.operator)
  {
    c.MemoryAdd();
    c.MemorySubtract();
    c.AllClear();
  }
}
