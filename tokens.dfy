/** The token and function enumerations of the expression lexer (parser.h). */
module Tokens {

  /** The functions the lexer recognises; NoFunc is the enumeration's "none" value. */
  datatype FuncType = Sin | Cos | Tan | Sqrt | Log | Exp | Abs | NoFunc

  /** A lexer token; a number carries its value and a function name its FuncType. */
  datatype Token =
    | Number(value: real)
    | Variable
    | Plus
    | Minus
    | Multiply
    | Divide
    | Power
    | LParen
    | RParen
    | Function(func: FuncType)
    | EOF
    | Error
  {
    /** Tokens other than numbers and end of input always span at least one character. */
    predicate HasWidth() {
      !Number? && !EOF?
    }
  }

  /** What the lexer leaves behind: the cursor position and the current token. */
  datatype Cursor = Cursor(pos: nat, tok: Token)

  /** The spelling of each function name; NoFunc has none. */
  function FuncName(f: FuncType): (name: string) {
    match f
    case Sin => "sin"
    case Cos => "cos"
    case Tan => "tan"
    case Sqrt => "sqrt"
    case Log => "log"
    case Exp => "exp"
    case Abs => "abs"
    case NoFunc => ""
  }
}
