/** The calculator's text test driver: a token names a button, which is
    clicked; "txt" only reports the display and an unknown token only reports
    invalid input, so neither changes the calculator. */
module Driver {
  import opened Numerals
  import opened JavaInt
  import opened Engine
  import opened Calc
  import opened Buttons

  /** What a click needs of the display so that its handler can parse it:
      `Integer.parseInt` for "x!", `Double.parseDouble` for the buttons that
      read a number; digit, '.', AC, MC and MR read no number. */
  predicate CanClick(display: string, b: Button) {
    if b.Factorial? then IsIntegerNumeral(display) && InIntRange(IntegerValue(display))
    else if b.Digit? || b.Point? || b.AllClear? || b.MemoryClear? || b.MemoryRecall? then true
    else IsNumeral(display)
  }

  /** The state the handlers share: the display text, the operation
      listener's first operand and operator, and the memory register. */
  datatype State = State(display: string, firstOperand: real, operator: string, memory: real)

  function StateOf(c: Calculator): State
    reads c
  {
    State(c.display, c.firstOperand, c.operator, c.memory)
  }

  /** What one click does to the shared state. */
  function Step(s: State, b: Button, lib: Library): State
    requires CanClick(s.display, b)
  {
    match b
    case Digit(d) => s.(display := EnterDigit(s.display, d))
    case Point => s.(display := WithPoint(s.display))
    case Sign => s.(display := SignToggled(s.display, lib.doubleToString))
    case Factorial => s.(display := FactorialDisplay(IntegerValue(s.display)))
    case AllClear => s.(display := "0")
    case Reciprocal => s.(display := Render(ReciprocalOf(NumeralValue(s.display)), lib.doubleToString))
    case SquareRoot => s.(display := Render(SqrtOf(NumeralValue(s.display), lib.sqrt), lib.doubleToString))
    case Log => s.(display := Render(LogOf(NumeralValue(s.display), lib.log), lib.doubleToString))
    case Equals =>
      s.(display := Render(Evaluate(s.operator, s.firstOperand, NumeralValue(s.display), lib.pow), lib.decimalFormat))
    case Plus => PendingOperator(s, OperatorText(b))
    case Minus => PendingOperator(s, OperatorText(b))
    case Times => PendingOperator(s, OperatorText(b))
    case Divide => PendingOperator(s, OperatorText(b))
    case Power => PendingOperator(s, OperatorText(b))
    case MemoryRecall => s.(display := Show(s.memory, lib.doubleToString))
    case MemoryClear => s.(memory := 0.0)
    case MemorySubtract => s.(memory := s.memory - NumeralValue(s.display))
    case MemoryAdd => s.(memory := s.memory + NumeralValue(s.display))
  }

  /** An operator key: the display's value becomes the first operand, the
      key's text the operator, and the display is cleared. */
  function PendingOperator(s: State, op: string): State
    requires IsNumeral(s.display)
  {
    State("", NumeralValue(s.display), op, s.memory)
  }

  /** Clicks one button. */
  method Click(c: Calculator, b: Button)
    requires CanClick(c.display, b)
    modifies c
    ensures StateOf(c) == Step(old(StateOf(c)), b, c.lib)
  {
    match b
    case Digit(d) => c.EnterNumber(d);
    case Point => c.EnterDecimal();
    case Sign => c.ToggleSign();
    case Factorial => c.Factorial();
    case AllClear => c.AllClear();
    case Reciprocal => c.Reciprocal();
    case SquareRoot => c.SquareRoot();
    case Log => c.Log();
    case Plus => c.Operation(OperatorText(b));
    case Minus => c.Operation(OperatorText(b));
    case Times => c.Operation(OperatorText(b));
    case Divide => c.Operation(OperatorText(b));
    case Power => c.Operation(OperatorText(b));
    case Equals => c.Operation(OperatorText(b));
    case MemoryRecall => c.MemoryRecall();
    case MemoryClear => c.MemoryClear();
    case MemorySubtract => c.MemorySubtract();
    case MemoryAdd => c.MemoryAdd();
  }

  /** Runs one token of the driver: a button token clicks its button, and
      "txt" or an unknown token leaves the calculator as it was. */
  method Test(c: Calculator, token: string)
    requires CommandOf(token).Click? ==> CanClick(c.display, CommandOf(token).button)
    modifies c
    ensures CommandOf(token).Click? ==> StateOf(c) == Step(old(StateOf(c)), CommandOf(token).button, c.lib)
    ensures !CommandOf(token).Click? ==> StateOf(c) == old(StateOf(c))
  {
    var command := CommandOf(token);
    if command.Click? {
      Click(c, command.button);
    }
  }
}
