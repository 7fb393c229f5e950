/** The token table of the calculator's text test driver: each token names one
    button, "txt" asks for the display, anything else is invalid input. */
module Buttons {
  import opened Numerals

  datatype Button =
    | Digit(d: char) | Point | Sign | Factorial | AllClear | Reciprocal | SquareRoot | Log
    | Plus | Minus | Times | Divide | Power | Equals
    | MemoryRecall | MemoryClear | MemorySubtract | MemoryAdd

  predicate IsButton(b: Button) {
    b.Digit? ==> IsDigit(b.d)
  }

  datatype Command = Click(button: Button) | PrintDisplay | InvalidInput

  /** The token the driver reads for a button. */
  function TokenOf(b: Button): string
    requires IsButton(b)
  {
    match b
    case Digit(d) => [d]
    case Factorial => "x!"
    case Sign => "-/+"
    case AllClear => "AC"
    case Reciprocal => "1/x"
    case SquareRoot => "sqr"
    case Log => "log"
    case Point => "."
    case Plus => "+"
    case Minus => "-"
    case Times => "*"
    case Divide => "/"
    case Power => "**"
    case Equals => "="
    case MemoryRecall => "MR"
    case MemoryClear => "MC"
    case MemorySubtract => "M-"
    case MemoryAdd => "M+"
  }

  /** What the driver does with a token. */
  function CommandOf(token: string): (c: Command)
    ensures c.Click? ==> IsButton(c.button)
  {
    if |token| == 1 && IsDigit(token[0]) then Click(Digit(token[0]))
    else if token == "x!" then Click(Factorial)
    else if token == "-/+" then Click(Sign)
    else if token == "AC" then Click(AllClear)
    else if token == "1/x" then Click(Reciprocal)
    else if token == "sqr" then Click(SquareRoot)
    else if token == "log" then Click(Log)
    else if token == "." then Click(Point)
    else if token == "+" then Click(Plus)
    else if token == "-" then Click(Minus)
    else if token == "*" then Click(Times)
    else if token == "/" then Click(Divide)
    else if token == "**" then Click(Power)
    else if token == "=" then Click(Equals)
    else if token == "MR" then Click(MemoryRecall)
    else if token == "MC" then Click(MemoryClear)
    else if token == "M-" then Click(MemorySubtract)
    else if token == "M+" then Click(MemoryAdd)
    else if token == "txt" then PrintDisplay
    else InvalidInput
  }

  /** Every button has a token, and the driver reads it back as that button. */
  lemma TokenRoundTrip(b: Button)
    requires IsButton(b)
    ensures CommandOf(TokenOf(b)) == Click(b)
  {
  }

  /** A token that clicks a button is that button's token: no two tokens
      click the same button. */
  lemma ClickedByItsToken(token: string)
    requires CommandOf(token).Click?
    ensures TokenOf(CommandOf(token).button) == token
  {
    if |token| == 1 && IsDigit(token[0]) {
      assert [token[0]] == token;
    }
  }

  /** The text the operation buttons carry, which the operation listener
      stores as its operator. */
  function OperatorText(b: Button): (text: string)
    requires b.Plus? || b.Minus? || b.Times? || b.Divide? || b.Power? || b.Equals?
    ensures (text == "=") <==> b.Equals?
  {
    match b
    case Plus => "+"
    case Minus => "-"
    case Times => "*"
    case Divide => "/"
    case Power => "x^y"
    case Equals => "="
  }
}
