/** The calculator engine behind the buttons: the shared display text, the
    pending first operand and operator of the operation listener, and the
    memory register. Each method is one button's handler. */
module Calc {
  import opened Numerals
  import opened JavaInt
  import opened Engine

  class Calculator {
    var display: string
    var firstOperand: real
    var operator: string
    var memory: real
    const lib: Library

    /** A fresh calculator: an empty display shows "0", nothing is pending
        and the memory holds 0. */
    constructor (lib: Library, initialText: string)
      ensures this.lib == lib
      ensures display == if initialText == "" then "0" else initialText
      ensures firstOperand == 0.0 && operator == "" && memory == 0.0
    {
      this.lib := lib;
      display := if initialText == "" then "0" else initialText;
      firstOperand := 0.0;
      operator := "";
      memory := 0.0;
    }

    /** Digit keys. */
    method EnterNumber(digit: char)
      modifies this`display
      ensures display == EnterDigit(old(display), digit)
      ensures old(display) == "0" ==> display == [digit]
      ensures old(display) != "0" ==> display == old(display) + [digit]
    {
      if display == "0" {
        display := [digit];
      } else {
        display := display + [digit];
      }
    }

    /** The '.' key. */
    method EnterDecimal()
      modifies this`display
      ensures display == WithPoint(old(display))
    {
      if '.' !in display {
        display := display + ".";
      }
    }

    /** The "-/+" key. */
    method ToggleSign()
      requires IsNumeral(display)
      modifies this`display
      ensures display == SignToggled(old(display), lib.doubleToString)
    {
      var value := NumeralValue(display);
      value := -value;
      if IsWhole(value) {
        display := IntToString(IntCast(value));
      } else {
        display := lib.doubleToString(value);
      }
    }

    /** The operator keys "+", "-", "*", "/", "x^y" and "=". An operator key
        stores the display's value and its own text and clears the display;
        "=" computes with them and leaves them in place. */
    method Operation(op: string)
      requires IsNumeral(display)
      modifies this`display, this`firstOperand, this`operator
      ensures op == "=" ==> firstOperand == old(firstOperand) && operator == old(operator)
      ensures op == "=" ==>
        display == Render(Evaluate(operator, firstOperand, NumeralValue(old(display)), lib.pow), lib.decimalFormat)
      ensures op != "=" ==> firstOperand == NumeralValue(old(display)) && operator == op && display == ""
    {
      if op == "=" {
        Equals();
      } else {
        firstOperand := NumeralValue(display);
        operator := op;
        display := "";
      }
    }

    /** The "=" half of the operation listener: the stored operator applied
        to the stored first operand and the display's value, with the two
        guarded errors shown as "ERROR" and a whole result as an int. */
    method Equals()
      requires IsNumeral(display)
      modifies this`display
      ensures var outcome := Evaluate(operator, firstOperand, NumeralValue(old(display)), lib.pow);
        && (outcome.Error? ==> display == ERROR)
        && (outcome.Value? ==> display == Show(outcome.value, lib.decimalFormat))
    {
      var secondOperand := NumeralValue(display);
      ghost var outcome := Evaluate(operator, firstOperand, secondOperand, lib.pow);
      var result := 0.0;
      if operator == "+" {
        result := firstOperand + secondOperand;
        assert outcome == Value(result);
      } else if operator == "-" {
        result := firstOperand - secondOperand;
        assert outcome == Value(result);
      } else if operator == "*" {
        result := firstOperand * secondOperand;
        assert outcome == Value(result);
      } else if operator == "x^y" {
        if firstOperand < 0.0 && !IsWhole(secondOperand) {
          assert outcome == Error;
          display := ERROR;
          return;
        }
        result := lib.pow(firstOperand, secondOperand);
        assert outcome == Value(result);
      } else if operator == "/" {
        if secondOperand == 0.0 {
          assert outcome == Error;
          display := ERROR;
          return;
        }
        result := firstOperand / secondOperand;
        assert outcome == Value(result);
      } else {
        assert outcome == Value(result);
      }
      ShowResult(result);
    }

    /** The end of "=": a result passing `result == (int) result` is shown
        as an int, any other by the decimal formatter. */
    method ShowResult(result: real)
      modifies this`display
      ensures display == Show(result, lib.decimalFormat)
    {
      if IsWhole(result) {
        display := IntToString(IntCast(result));
      } else {
        display := lib.decimalFormat(result);
      }
    }

    /** The "x!" key: an int loop over 1..n, guarded to 0 <= n <= 10. */
    method Factorial()
      requires IsIntegerNumeral(display) && InIntRange(IntegerValue(display))
      modifies this`display
      ensures display == FactorialDisplay(IntegerValue(old(display)))
    {
      var number := IntegerValue(display);
      if number < 0 || number > 10 {
        display := ERROR;
        return;
      }
      var result := 1;
      for i := 1 to number + 1
        invariant result == Fact(i - 1)
      {
        FactorialFits(i);
        result := Wrap32(result * i);
      }
      display := IntToString(result);
    }

    /** The "log" key (natural logarithm). */
    method Log()
      requires IsNumeral(display)
      modifies this`display
      ensures display == Render(LogOf(NumeralValue(old(display)), lib.log), lib.doubleToString)
    {
      var value := NumeralValue(display);
      if value <= 0.0 {
        display := ERROR;
      } else {
        var result := lib.log(value);
        if IsWhole(result) {
          display := IntToString(IntCast(result));
        } else {
          display := lib.doubleToString(result);
        }
      }
    }

    /** The "1/x" key. */
    method Reciprocal()
      requires IsNumeral(display)
      modifies this`display
      ensures display == Render(ReciprocalOf(NumeralValue(old(display))), lib.doubleToString)
    {
      var value := NumeralValue(display);
      if value == 0.0 {
        display := ERROR;
      } else {
        var result := 1.0 / value;
        if IsWhole(result) {
          display := IntToString(IntCast(result));
        } else {
          display := lib.doubleToString(result);
        }
      }
    }

    /** The "sqr" key (square root). */
    method SquareRoot()
      requires IsNumeral(display)
      modifies this`display
      ensures display == Render(SqrtOf(NumeralValue(old(display)), lib.sqrt), lib.doubleToString)
    {
      var value := NumeralValue(display);
      if value < 0.0 {
        display := ERROR;
      } else {
        var result := lib.sqrt(value);
        if IsWhole(result) {
          display := IntToString(IntCast(result));
        } else {
          display := lib.doubleToString(result);
        }
      }
    }

    /** MC. */
    method MemoryClear()
      modifies this`memory
      ensures memory == 0.0
    {
      memory := 0.0;
    }

    /** AC: clears the display only. */
    method AllClear()
      modifies this`display
      ensures display == "0"
    {
      display := "0";
    }

    /** M+. */
    method MemoryAdd()
      requires IsNumeral(display)
      modifies this`memory
      ensures memory == old(memory) + NumeralValue(display)
    {
      var currentValue := NumeralValue(display);
      memory := memory + currentValue;
    }

    /** M-. */
    method MemorySubtract()
      requires IsNumeral(display)
      modifies this`memory
      ensures memory == old(memory) - NumeralValue(display)
    {
      var currentValue := NumeralValue(display);
      memory := memory - currentValue;
    }

    /** MR: shows the memory, as an integer literal when it is whole. */
    method MemoryRecall()
      modifies this`display
      ensures display == Show(memory, lib.doubleToString)
    {
      display := lib.doubleToString(memory);
      if IsWhole(memory) {
        display := IntToString(IntCast(memory));
      } else {
        display := lib.doubleToString(memory);
      }
    }
  }
}
