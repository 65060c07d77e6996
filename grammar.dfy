/**
 * The recursive-descent parser of parser.c as pure functions over the input and a cursor.
 * Each function returns the tree its evaluation order implies and the cursor it leaves; the
 * loops of Power, Term and Expression are the tail-recursive PowerRest, TermRest, ExprRest.
 */
module Grammar {
  import opened Tokens
  import opened Lexer
  import opened Expressions

  predicate ValidCursor(s: string, c: Cursor) {
    c.pos <= |s|
  }

  /**
   * Termination measure: the unread input counted twice, plus one while the current token
   * has width.  Lexing never increases it, and it decreases whenever the token consumed has width.
   */
  function Measure(s: string, c: Cursor): (m: nat)
    requires ValidCursor(s, c)
  {
    2 * (|s| - c.pos) + (if c.tok.HasWidth() then 1 else 0)
  }

  /** GetNextToken on a cursor. */
  function Advance(s: string, c: Cursor): (r: Cursor)
    requires ValidCursor(s, c)
    ensures ValidCursor(s, r)
    ensures c.pos <= r.pos
    ensures Measure(s, r) <= 2 * (|s| - c.pos)
  {
    NextToken(s, c.pos)
  }

  /** The cursor Parser_Init establishes. */
  function Start(s: string): (c: Cursor)
    ensures ValidCursor(s, c)
  {
    NextToken(s, 0)
  }

  function ParseFactor(s: string, c: Cursor): (r: (Expr, Cursor))
    requires ValidCursor(s, c)
    ensures ValidCursor(s, r.1) && Measure(s, r.1) <= Measure(s, c)
    ensures c.pos <= r.1.pos
    decreases Measure(s, c), 0
  {
    match c.tok
    case Number(v) => (Num(v), Advance(s, c))
    case Variable => (Var, Advance(s, c))
    case LParen =>
      var (e, c1) := ParseExpression(s, Advance(s, c));
      (e, if c1.tok == RParen then Advance(s, c1) else c1)
    case Minus =>
      var (e, c1) := ParseFactor(s, Advance(s, c));
      (Neg(e), c1)
    case Function(f) =>
      var (e, c1) := ParseFactor(s, Advance(s, c));
      (Call(f, e), c1)
    case _ => (Num(0.0), c)
  }

  /** The loop of Power: while the token is '^', parse a Power and raise left to it. */
  function PowerRest(s: string, left: Expr, c: Cursor): (r: (Expr, Cursor))
    requires ValidCursor(s, c)
    ensures ValidCursor(s, r.1) && Measure(s, r.1) <= Measure(s, c)
    ensures c.pos <= r.1.pos
    ensures r.1.tok != Power
    decreases Measure(s, c), 0
  {
    if c.tok == Power then
      var (right, c1) := ParsePower(s, Advance(s, c));
      PowerRest(s, Bin(Pow, left, right), c1)
    else (left, c)
  }

  function ParsePower(s: string, c: Cursor): (r: (Expr, Cursor))
    requires ValidCursor(s, c)
    ensures ValidCursor(s, r.1) && Measure(s, r.1) <= Measure(s, c)
    ensures c.pos <= r.1.pos
    ensures r.1.tok != Power
    decreases Measure(s, c), 1
  {
    var (left, c1) := ParseFactor(s, c);
    PowerRest(s, left, c1)
  }

  /** The loop of Term: while the token is '*' or '/', parse a Power and combine. */
  function TermRest(s: string, left: Expr, c: Cursor): (r: (Expr, Cursor))
    requires ValidCursor(s, c)
    ensures ValidCursor(s, r.1) && Measure(s, r.1) <= Measure(s, c)
    ensures c.pos <= r.1.pos
    ensures r.1.tok != Multiply && r.1.tok != Divide
    ensures c.tok != Power ==> r.1.tok != Power
    decreases Measure(s, c), 1
  {
    if c.tok == Multiply || c.tok == Divide then
      var op := if c.tok == Multiply then Mul else Div;
      var (right, c1) := ParsePower(s, Advance(s, c));
      TermRest(s, Bin(op, left, right), c1)
    else (left, c)
  }

  function ParseTerm(s: string, c: Cursor): (r: (Expr, Cursor))
    requires ValidCursor(s, c)
    ensures ValidCursor(s, r.1) && Measure(s, r.1) <= Measure(s, c)
    ensures c.pos <= r.1.pos
    ensures r.1.tok != Multiply && r.1.tok != Divide && r.1.tok != Power
    decreases Measure(s, c), 2
  {
    var (left, c1) := ParsePower(s, c);
    TermRest(s, left, c1)
  }

  /** The loop of Expression: while the token is '+' or '-', parse a Term and combine. */
  function ExprRest(s: string, left: Expr, c: Cursor): (r: (Expr, Cursor))
    requires ValidCursor(s, c)
    ensures ValidCursor(s, r.1) && Measure(s, r.1) <= Measure(s, c)
    ensures c.pos <= r.1.pos
    ensures r.1.tok != Plus && r.1.tok != Minus
    ensures c.tok != Multiply && c.tok != Divide && c.tok != Power ==> r.1.tok != Multiply && r.1.tok != Divide && r.1.tok != Power
    decreases Measure(s, c), 2
  {
    if c.tok == Plus || c.tok == Minus then
      var op := if c.tok == Plus then Add else Sub;
      var (right, c1) := ParseTerm(s, Advance(s, c));
      ExprRest(s, Bin(op, left, right), c1)
    else (left, c)
  }

  function ParseExpression(s: string, c: Cursor): (r: (Expr, Cursor))
    requires ValidCursor(s, c)
    ensures ValidCursor(s, r.1) && Measure(s, r.1) <= Measure(s, c)
    ensures c.pos <= r.1.pos
    ensures r.1.tok != Plus && r.1.tok != Minus
    ensures r.1.tok != Multiply && r.1.tok != Divide && r.1.tok != Power
    decreases Measure(s, c), 3
  {
    var (left, c1) := ParseTerm(s, c);
    ExprRest(s, left, c1)
  }

  /** The tree Parser_Init followed by Parser_Evaluate evaluates; leftover tokens are ignored. */
  function ParseFormula(s: string): (e: Expr)
    ensures Start(s).tok in {RParen, EOF, Error} ==> e == Num(0.0)
  {
    var c := Start(s);
    if c.tok in {RParen, EOF, Error} then
      assert ParsePower(s, c) == (Num(0.0), c);
      assert ParseTerm(s, c) == (Num(0.0), c);
      assert ExprRest(s, Num(0.0), c) == (Num(0.0), c);
      ParseExpression(s, c).0
    else ParseExpression(s, c).0
  }

  /** The value of a formula at x; a formula without the variable has the same value everywhere. */
  function EvaluateFormula(s: string, x: real, lib: MathLib): (v: real)
    ensures !MentionsVar(ParseFormula(s)) ==> v == Eval(ParseFormula(s), 0.0, lib)
  {
    if MentionsVar(ParseFormula(s)) then Eval(ParseFormula(s), x, lib)
    else ConstantWithoutVar(ParseFormula(s), x, 0.0, lib); Eval(ParseFormula(s), x, lib)
  }
}
