/**
 * The expression trees implied by the evaluation order of parser.c, and their value over the
 * reals.  The C math library is a parameter: pow and the transcendental functions are
 * uninterpreted, fabs is the absolute value.
 */
module Expressions {
  import opened Tokens

  datatype BinOp = Add | Sub | Mul | Div | Pow

  datatype Expr =
    | Num(value: real)
    | Var
    | Neg(operand: Expr)
    | Call(func: FuncType, arg: Expr)
    | Bin(op: BinOp, left: Expr, right: Expr)

  datatype MathLib = MathLib(
    pow: (real, real) -> real,
    sin: real -> real,
    cos: real -> real,
    tan: real -> real,
    sqrt: real -> real,
    log: real -> real,
    exp: real -> real)

  function Fabs(v: real): (r: real)
    ensures r >= 0.0 && (r == v || r == -v)
  {
    if v < 0.0 then -v else v
  }

  /** The function a FuncType names, applied to v; NoFunc gives 0. */
  function Apply(f: FuncType, v: real, lib: MathLib): (r: real)
    ensures f == Abs ==> r >= 0.0 && (r == v || r == -v)
    ensures f == NoFunc ==> r == 0.0
  {
    match f
    case Sin => lib.sin(v)
    case Cos => lib.cos(v)
    case Tan => lib.tan(v)
    case Sqrt => lib.sqrt(v)
    case Log => lib.log(v)
    case Exp => lib.exp(v)
    case Abs => Fabs(v)
    case NoFunc => 0.0
  }

  /** The value of a tree for the variable value x; a zero divisor makes the quotient 0. */
  function Eval(e: Expr, x: real, lib: MathLib): (v: real)
    ensures e == Var ==> v == x
    ensures e.Call? && e.func == Abs ==> v >= 0.0
  {
    match e
    case Num(v) => v
    case Var => x
    case Neg(a) => -Eval(a, x, lib)
    case Call(f, a) => Apply(f, Eval(a, x, lib), lib)
    case Bin(op, l, r) =>
      var lv, rv := Eval(l, x, lib), Eval(r, x, lib);
      match op
      case Add => lv + rv
      case Sub => lv - rv
      case Mul => lv * rv
      case Div => if rv != 0.0 then lv / rv else 0.0
      case Pow => lib.pow(lv, rv)
  }

  /** Whether the variable occurs in a tree. */
  predicate MentionsVar(e: Expr) {
    match e
    case Num(_) => false
    case Var => true
    case Neg(a) => MentionsVar(a)
    case Call(_, a) => MentionsVar(a)
    case Bin(_, l, r) => MentionsVar(l) || MentionsVar(r)
  }

  /** A tree without the variable has the same value for every x. */
  lemma {:induction false} ConstantWithoutVar(e: Expr, x1: real, x2: real, lib: MathLib)
    requires !MentionsVar(e)
    ensures Eval(e, x1, lib) == Eval(e, x2, lib)
  {
    match e
    case Num(_) =>
    case Var =>
    case Neg(a) => ConstantWithoutVar(a, x1, x2, lib);
    case Call(_, a) => ConstantWithoutVar(a, x1, x2, lib);
    case Bin(_, l, r) =>
      ConstantWithoutVar(l, x1, x2, lib);
      ConstantWithoutVar(r, x1, x2, lib);
  }

  /** Division by a right operand whose value is exactly zero yields zero, not an error. */
  lemma DivisionByZeroIsZero(l: Expr, r: Expr, x: real, lib: MathLib)
    requires Eval(r, x, lib) == 0.0
    ensures Eval(Bin(Div, l, r), x, lib) == 0.0
  {
  }
}
