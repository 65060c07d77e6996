/**
 * Precedence and associativity of the parser, stated as the shape of the trees it builds.
 */
module GrammarProperties {
  import opened Tokens
  import opened Lexer
  import opened Expressions
  import opened Grammar

  // The grammar levels as tree shapes.  A factor is a number, the variable, or a negation or
  // function application of a factor.  A power is a factor, or a factor raised to a power
  // (right-associative).  A term is a chain of powers combined by '*' and '/' leaning left,
  // an expression a chain of terms combined by '+' and '-' leaning left.

  predicate IsFactorShape(e: Expr) {
    match e
    case Num(_) => true
    case Var => true
    case Neg(a) => IsFactorShape(a)
    case Call(_, a) => IsFactorShape(a)
    case Bin(_, _, _) => false
  }

  predicate IsPowerShape(e: Expr) {
    IsFactorShape(e) || (e.Bin? && e.op == Pow && IsFactorShape(e.left) && IsPowerShape(e.right))
  }

  predicate IsTermShape(e: Expr) {
    IsPowerShape(e) || (e.Bin? && (e.op == Mul || e.op == Div) && IsTermShape(e.left) && IsPowerShape(e.right))
  }

  predicate IsExprShape(e: Expr) {
    IsTermShape(e) || (e.Bin? && (e.op == Add || e.op == Sub) && IsExprShape(e.left) && IsTermShape(e.right))
  }

  predicate ParenFree(s: string) {
    forall k | 0 <= k < |s| :: s[k] != '('
  }

  lemma AdvanceParenFree(s: string, c: Cursor)
    requires ParenFree(s) && ValidCursor(s, c)
    ensures Advance(s, c).tok != LParen
  {
    if Advance(s, c).tok == LParen {
      LParenComesFromParen(s, c.pos);
      assert false;
    }
  }

  lemma {:induction false} FactorShape(s: string, c: Cursor)
    requires ParenFree(s) && ValidCursor(s, c) && c.tok != LParen
    ensures IsFactorShape(ParseFactor(s, c).0) && ParseFactor(s, c).1.tok != LParen
    decreases Measure(s, c), 0
  {
    AdvanceParenFree(s, c);
    match c.tok
    case Minus => FactorShape(s, Advance(s, c));
    case Function(_) => FactorShape(s, Advance(s, c));
    case _ =>
  }

  lemma {:induction false} PowerRestShape(s: string, left: Expr, c: Cursor)
    requires ParenFree(s) && ValidCursor(s, c) && c.tok != LParen && IsFactorShape(left)
    ensures IsPowerShape(PowerRest(s, left, c).0) && PowerRest(s, left, c).1.tok != LParen
    decreases Measure(s, c), 0
  {
    if c.tok == Power {
      AdvanceParenFree(s, c);
      PowerShape(s, Advance(s, c));
    }
  }

  lemma {:induction false} PowerShape(s: string, c: Cursor)
    requires ParenFree(s) && ValidCursor(s, c) && c.tok != LParen
    ensures IsPowerShape(ParsePower(s, c).0) && ParsePower(s, c).1.tok != LParen
    decreases Measure(s, c), 1
  {
    FactorShape(s, c);
    var (left, c1) := ParseFactor(s, c);
    PowerRestShape(s, left, c1);
  }

  lemma {:induction false} TermRestShape(s: string, left: Expr, c: Cursor)
    requires ParenFree(s) && ValidCursor(s, c) && c.tok != LParen && IsTermShape(left)
    ensures IsTermShape(TermRest(s, left, c).0) && TermRest(s, left, c).1.tok != LParen
    decreases Measure(s, c), 1
  {
    if c.tok == Multiply || c.tok == Divide {
      var op := if c.tok == Multiply then Mul else Div;
      AdvanceParenFree(s, c);
      PowerShape(s, Advance(s, c));
      var (right, c1) := ParsePower(s, Advance(s, c));
      TermRestShape(s, Bin(op, left, right), c1);
    }
  }

  lemma {:induction false} TermShape(s: string, c: Cursor)
    requires ParenFree(s) && ValidCursor(s, c) && c.tok != LParen
    ensures IsTermShape(ParseTerm(s, c).0) && ParseTerm(s, c).1.tok != LParen
    decreases Measure(s, c), 2
  {
    PowerShape(s, c);
    var (left, c1) := ParsePower(s, c);
    TermRestShape(s, left, c1);
  }

  lemma {:induction false} ExprRestShape(s: string, left: Expr, c: Cursor)
    requires ParenFree(s) && ValidCursor(s, c) && c.tok != LParen && IsExprShape(left)
    ensures IsExprShape(ExprRest(s, left, c).0) && ExprRest(s, left, c).1.tok != LParen
    decreases Measure(s, c), 2
  {
    if c.tok == Plus || c.tok == Minus {
      var op := if c.tok == Plus then Add else Sub;
      AdvanceParenFree(s, c);
      TermShape(s, Advance(s, c));
      var (right, c1) := ParseTerm(s, Advance(s, c));
      ExprRestShape(s, Bin(op, left, right), c1);
    }
  }

  lemma {:induction false} ExpressionShape(s: string, c: Cursor)
    requires ParenFree(s) && ValidCursor(s, c) && c.tok != LParen
    ensures IsExprShape(ParseExpression(s, c).0) && ParseExpression(s, c).1.tok != LParen
    decreases Measure(s, c), 3
  {
    TermShape(s, c);
    var (left, c1) := ParseTerm(s, c);
    ExprRestShape(s, left, c1);
  }

  /**
   * Precedence: on an input without parentheses, the tree has '+'/'-' only above '*'/'/',
   * those only above '^', that only above negation and function application; '+ - * /'
   * lean left and '^' leans right.
   */
  lemma PrecedenceShape(s: string)
    requires ParenFree(s)
    ensures IsExprShape(ParseFormula(s))
  {
    AdvanceParenFree(s, Cursor(0, EOF));
    ExpressionShape(s, Start(s));
  }

  /**
   * Right associativity of '^': the loop of Power runs at most once, because the recursive
   * Power call already consumed every following '^'.
   */
  lemma PowerIsRightAssociative(s: string, c: Cursor)
    requires ValidCursor(s, c)
    ensures var (l, c1) := ParseFactor(s, c);
      ParsePower(s, c) ==
        if c1.tok == Power then
          var (r, c2) := ParsePower(s, Advance(s, c1));
          (Bin(Pow, l, r), c2)
        else (l, c1)
  {
    var (l, c1) := ParseFactor(s, c);
    if c1.tok == Power {
      var (r, c2) := ParsePower(s, Advance(s, c1));
      assert PowerRest(s, Bin(Pow, l, r), c2) == (Bin(Pow, l, r), c2);
    }
  }

  /**
   * Unary minus and function application take a factor, so they bind tighter than '^': the
   * Power read at '-' or at a function name is the prefix applied to a factor, possibly
   * raised to a power, and never the prefix applied to a power.
   */
  lemma PrefixBindsTighterThanPower(s: string, c: Cursor)
    requires ValidCursor(s, c) && (c.tok == Minus || c.tok.Function?)
    ensures var e := ParseFactor(s, Advance(s, c)).0;
      var prefixed := if c.tok == Minus then Neg(e) else Call(c.tok.func, e);
      var p := ParsePower(s, c).0;
      p == prefixed || (p.Bin? && p.op == Pow && p.left == prefixed)
  {
    var (e, c1) := ParseFactor(s, Advance(s, c));
    var prefixed := if c.tok == Minus then Neg(e) else Call(c.tok.func, e);
    assert ParseFactor(s, c) == (prefixed, c1);
    PowerIsRightAssociative(s, c);
  }

  /**
   * At a token that cannot start a factor (an operator other than '-', ')', an error or the
   * end of input) Factor yields 0 and consumes nothing, and so does a whole Expression.
   */
  lemma MissingOperandIsZero(s: string, c: Cursor)
    requires ValidCursor(s, c)
    requires c.tok in {Plus, Multiply, Divide, Power, RParen, EOF, Error}
    ensures ParseFactor(s, c) == (Num(0.0), c)
    ensures c.tok != Plus && c.tok != Multiply && c.tok != Divide && c.tok != Power ==>
      ParseExpression(s, c) == (Num(0.0), c)
  {
    if c.tok in {RParen, EOF, Error} {
      assert ParsePower(s, c) == (Num(0.0), c);
      assert ParseTerm(s, c) == (Num(0.0), c);
    }
  }

  /** A ')' after a parenthesised expression is consumed when present and otherwise not required. */
  lemma ClosingParenOptional(s: string, c: Cursor)
    requires ValidCursor(s, c) && c.tok == LParen
    ensures var (e, c1) := ParseExpression(s, Advance(s, c));
      && ParseFactor(s, c).0 == e
      && ParseFactor(s, c).1 == (if c1.tok == RParen then Advance(s, c1) else c1)
  {
  }
}
