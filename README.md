# Calculator engine

A model of the engine behind the buttons of a small Swing desktop calculator
(`src/calculator/Calculator.java`). The calculator keeps four pieces of
state: the text of the display, the operation listener's pending first
operand and operator, and a memory register. Every button overwrites the
display text or one of those registers:

- digit keys replace a lone `"0"` or append the digit; the `.` key appends a
  point only when there is none yet; AC resets the display to `"0"`;
- `-/+` negates the parsed display value;
- the operator keys `+`, `-`, `*`, `/` and `x^y` store the parsed display as
  the first operand and the key text as the operator, and clear the display;
  `=` parses the second operand and dispatches on the stored operator, with
  two guarded errors (division by zero; a negative base with an exponent
  that is not whole), and leaves the operand and operator in place, so `=`
  can be pressed again;
- `x!` computes n! in an `int` loop for 0 ≤ n ≤ 10 and shows `ERROR` outside
  that range; `log`, `1/x` and `sqr` guard their domains and show `ERROR`;
- MC, M+, M- and MR clear, add to, subtract from and recall the memory;
- a whole result that fits in an `int` is shown as an integer literal.

Modules:

- `Numerals` (numerals.dfy): the numerals the display holds, their values,
  and `Integer.toString` as `IntToString`, with its round trips.
- `JavaInt` (java_int.dfy): Java's `(int)` cast of a double (truncation and
  saturation), the source's `x == (int) x` test, and 32-bit wrap-around.
- `Engine` (engine.dfy): what each button computes, as functions of the
  display and the registers, and the facts proved about them.
- `Calc` (calculator.dfy): the class `Calculator`, with fields `display`,
  `firstOperand`, `operator` and `memory`, and one method per button
  handler. The handlers that change the display are proved to compute the
  matching `Engine` function; the memory handlers state the new register.
- `Buttons` (buttons.dfy): the token table of the `test` driver.
- `Driver` (driver.dfy): the driver itself and the state-transition function
  `Step` of one click. Facts about several clicks are in `Engine`
  (`EqualsError`, `EqualsResultReparses`) and `Scenarios`.
- `Scenarios` (scenarios.dfy): button sequences run on a `Calculator`, with
  the display they end with.

Numbers are Dafny `real`s, so `+`, `-`, `*`, `/` and `1/x` are exact.
`Math.pow`, `Math.log`, `Math.sqrt`, the `DecimalFormat` used by `=` and
`Double.toString` are not modelled: they are function-valued fields of a
`Library` value that the calculator is built with, so any implementation of
them satisfies every contract here, and only the guards and the dispatch
around them are verified.

A numeric handler requires the display to be a numeral (an optional `-`,
digits with at most one `.`, at least one digit); `x!` requires an integer
numeral within the `int` range. Those are the displays that
`Double.parseDouble` and `Integer.parseInt` accept in the model.

In three places the model keeps the code's own choices:

- the result of `=` is formatted by `DecimalFormat`, the other results by
  `Double.toString`; the two formatters are kept apart;
- the power button's text, which `=` dispatches on, is `x^y`, while the
  driver's token for it is `**`;
- "whole" means `x == (int) x`, which holds exactly of the integers in the
  `int` range (`JavaInt.WholeIff`). So the `x^y` guard also rejects a
  negative base with a whole exponent outside the `int` range, and a whole
  result outside that range goes to the decimal formatter.

## Model

| member | source | states |
|---|---|---|
| `Calc.Calculator.constructor` | src/calculator/Calculator.java:309-313 | an empty display starts as "0"; no operand or operator is pending and the memory is 0 |
| `Calc.Calculator.EnterNumber` | src/calculator/Calculator.java:61-68 | a display of exactly "0" becomes the digit; any other display gets the digit appended |
| `Engine.DigitEntryValue` | src/calculator/Calculator.java:62-67 | on a display of digits, a digit key multiplies the value by ten and adds the digit |
| `Engine.DigitEntryKeepsNumeral` | src/calculator/Calculator.java:62-67 | digit entry keeps a numeral a numeral, and turns the cleared display "" or "." into one |
| `Calc.Calculator.EnterDecimal` | src/calculator/Calculator.java:82-87 | the display gets a '.' appended exactly when it holds none |
| `Engine.PointIdempotent` | src/calculator/Calculator.java:84-86 | pressing '.' twice equals pressing it once; afterwards the display holds a '.', and exactly one if it held at most one |
| `Engine.PointKeepsValue` | src/calculator/Calculator.java:84-86 | '.' on an integer numeral gives a numeral with the same value |
| `Calc.Calculator.ToggleSign` | src/calculator/Calculator.java:102-114 | the display shows the negated value, as an integer literal when it is whole |
| `Engine.SignToggleTwice` | src/calculator/Calculator.java:103-113 | toggling the sign twice restores a canonical integer display whose negation is an int; a display that is not canonical, such as "07", comes back normalised, so only canonical ones are restored |
| `Calc.Calculator.Operation` | src/calculator/Calculator.java:131-185 | an operator key stores the parsed display and its own text and clears the display; "=" shows the rendered outcome of the stored operation and keeps the operand and the operator |
| `Calc.Calculator.Equals` | src/calculator/Calculator.java:136-175 | "=" shows "ERROR" when the stored operation is one of the two guarded errors, and otherwise shows the value of the stored operator applied to the stored operand and the display's value |
| `Calc.Calculator.ShowResult` | src/calculator/Calculator.java:170-175 | a result passing `result == (int) result` is shown as an int, any other by the decimal formatter; `Engine.ShowWhole` says which results those are |
| `Engine.Evaluate` | src/calculator/Calculator.java:137-168 | "=" fails exactly on division by zero and on a negative base with an exponent that is not whole; "+" and "-" are undone by the second operand; "x^y" is `Math.pow`; an unknown operator gives 0 |
| `Engine.EqualsWithoutOperator` | src/calculator/Calculator.java:139-142 | with no operator stored, "=" shows "0" |
| `Engine.EqualsError` | src/calculator/Calculator.java:152-166 | "=" shows "ERROR" on division by zero and on a negative base with an exponent that is not whole |
| `Engine.EqualsResultReparses` | src/calculator/Calculator.java:137-177 | a whole result in the int range is shown as a numeral that parses back to it, so a second "=" reapplies the stored operator to the stored operand and that result |
| `Engine.DivisionUndone` | src/calculator/Calculator.java:156-160 | a "/" by a non-zero second operand gives a value that, multiplied back by it, is the first operand |
| `Engine.ShowWhole` | src/calculator/Calculator.java:171-173 | a whole result in the int range is shown as its canonical integer literal, which parses back to the result |
| `Engine.ShowInt` | src/calculator/Calculator.java:108-109 | an int is shown as `Integer.toString` prints it, and that text parses back to it |
| `JavaInt.IntCast` | src/calculator/Calculator.java:108 | Java's `(int)` cast always yields a value in the int range |
| `JavaInt.WholeIff` | src/calculator/Calculator.java:171 | `x == (int) x` holds exactly when x is an integer in the int range, and then the cast is x itself |
| `JavaInt.Wrap32` | src/calculator/Calculator.java:208 | int multiplication wraps modulo 2^32 into the int range and leaves in-range values alone |
| `Calc.Calculator.Factorial` | src/calculator/Calculator.java:199-211 | the loop keeps `result == (i-1)!`; the display becomes the factorial display of the parsed integer |
| `Engine.FactorialDisplay` | src/calculator/Calculator.java:200-210 | outside [0, 10] the display is "ERROR"; inside it is the canonical integer literal of n! |
| `Engine.FactorialFits` | src/calculator/Calculator.java:201-209 | every factorial in the guarded range fits in an int, so the int loop never wraps |
| `Engine.FactMonotone` | src/calculator/Calculator.java:207-209 | the factorial grows with its argument |
| `Calc.Calculator.Log` | src/calculator/Calculator.java:226-241 | the display is "ERROR" for a value at most 0, else the rendered `Math.log` of it |
| `Engine.LogOf` | src/calculator/Calculator.java:228-232 | log fails exactly on values at most 0 and is `Math.log` otherwise |
| `Calc.Calculator.Reciprocal` | src/calculator/Calculator.java:255-270 | the display is "ERROR" for 0, else the rendered reciprocal |
| `Engine.ReciprocalOf` | src/calculator/Calculator.java:258-262 | the reciprocal fails exactly on 0, and otherwise multiplied by the value gives 1 |
| `Calc.Calculator.SquareRoot` | src/calculator/Calculator.java:284-300 | the display is "ERROR" for a negative value, else the rendered `Math.sqrt` of it |
| `Engine.SqrtOf` | src/calculator/Calculator.java:287-291 | the square root fails exactly on negative values and is `Math.sqrt` otherwise |
| `Calc.Calculator.MemoryClear` | src/calculator/Calculator.java:349-354 | MC sets the memory to 0 |
| `Calc.Calculator.AllClear` | src/calculator/Calculator.java:357-362 | AC sets the display to "0" and touches nothing else |
| `Calc.Calculator.MemoryAdd` | src/calculator/Calculator.java:365-371 | M+ adds the display's value to the memory |
| `Calc.Calculator.MemorySubtract` | src/calculator/Calculator.java:374-380 | M- subtracts the display's value from the memory |
| `Calc.Calculator.MemoryRecall` | src/calculator/Calculator.java:383-395 | MR shows the memory, as an integer literal when it is whole |
| `Numerals.IntToStringValue` | src/calculator/Calculator.java:109 | `Integer.toString` prints a canonical integer literal that parses back to its argument |
| `Numerals.CanonicalRoundTrip` | src/calculator/Calculator.java:109 | printing the value of a canonical integer literal gives the literal back |
| `Numerals.IntegerNumeralValue` | src/calculator/Calculator.java:200 | `Integer.parseInt` and `Double.parseDouble` agree on an integer numeral |
| `Numerals.DecimalLiteralValue` | src/calculator/Calculator.java:103 | a literal `w.f` is a numeral denoting the whole part w plus the fraction the digits f denote |
| `Buttons.TokenRoundTrip` | src/calculator/Calculator.java:402-491 | every button's token is read back by the driver as that button |
| `Buttons.ClickedByItsToken` | src/calculator/Calculator.java:402-491 | a token that clicks a button is that button's token |
| `Buttons.OperatorText` | src/calculator/Calculator.java:137-160 | only the "=" button carries the text "=" |
| `Driver.Click` | src/calculator/Calculator.java:316-395 | clicking a button runs its handler, which changes the shared state as `Step` says |
| `Driver.Test` | src/calculator/Calculator.java:402-491 | a button token clicks its button; "txt" and an unknown token leave the state unchanged |
| `Scenarios.AddFiveAndThree` | src/calculator/Calculator.java:137-183 | 5 + 3 = clears the display at "+" and shows "8" |
| `Scenarios.ChainedEquals` | src/calculator/Calculator.java:137-183 | 2 * 3 = = shows "6" and then "12" |
| `Scenarios.DivideByZero` | src/calculator/Calculator.java:160-165 | 6 / 0 = shows "ERROR" and keeps the operand 6, the operator "/" and the memory |
| `Scenarios.NegativeBaseFractionalExponent` | src/calculator/Calculator.java:152-157 | -4 x^y 0.5 = shows "ERROR" |
| `Scenarios.ToggleSevenTwice` | src/calculator/Calculator.java:102-114 | -/+ on "7" shows "-7", and again shows "7" |
| `Scenarios.Factorials` | src/calculator/Calculator.java:199-211 | x! on "11" shows "ERROR", on "5" shows "120", on "0" shows "1" |
| `Scenarios.MemorySum` | src/calculator/Calculator.java:349-395 | MC, M+ 5, M+ 3, MR shows "8" on the calculator itself |
| `Scenarios.DomainErrors` | src/calculator/Calculator.java:226-300 | 1/x of 0, log of 0 and the square root of -4 each show "ERROR" |
| `Scenarios.AddThenSubtract` | src/calculator/Calculator.java:357-380 | M+ then M- leaves the memory as it was; AC then shows "0" |

## Left out

- The Swing window, its panel and button fields, the wiring of listeners to
  buttons, `doClick` and `main`: GUI plumbing with no logic. `Driver.Click`
  stands for the wiring.
- The values of `Math.pow`, `Math.log` and `Math.sqrt`, and the text of
  `DecimalFormat("#.#######################")` and `Double.toString`: foreign
  library code, passed in as the fields of `Engine.Library`.
- IEEE-754 doubles: rounding, NaN, infinities and negative zero. Numbers are
  exact reals.
- `Double.parseDouble` and `Integer.parseInt`: only plain numerals are
  modelled; exponents, a leading `+`, whitespace, `NaN`, `Infinity` and type
  suffixes are not, and the exception thrown on a display that does not
  parse (such as `"ERROR"`, or `""` right after an operator key) is out of
  contract, so each numeric handler requires a numeral.
- `Engine.Evaluate`: for `x^y` it states only the guard and that the value is
  `Math.pow`'s, because the library's value is not modelled.
- The console output of the driver's `txt` and invalid-input cases: I/O.
  `Driver.Test` models that neither changes the calculator.
