/**
 * Concrete formulas and the trees the parser builds for them: operator precedence and
 * associativity, the tight binding of prefix operators, and the lenient treatment of
 * malformed input (a missing ')', leftover and unknown tokens).  Each example is proved in two steps:
 * the lexing of the text into its token stream, then the parse of that stream.
 */
module GrammarExamples {
  import opened Tokens
  import opened Lexer
  import opened Expressions
  import opened Grammar

  // ----
  // Lexing steps, stated once for any string

  /** A single digit not followed by more of a number is a number token. */
  /** Evaluating a formula whose tree is known. */
  lemma ValueOfTree(s: string, e: Expr, x: real, lib: MathLib)
    requires ParseFormula(s) == e
    ensures EvaluateFormula(s, x, lib) == Eval(e, x, lib)
  {
  }

  lemma LexDigitAt(s: string, i: nat)
    requires i < |s| && IsDigit(s[i])
    requires i + 1 == |s| || (!IsDigit(s[i + 1]) && s[i + 1] != '.' && s[i + 1] != 'e' && s[i + 1] != 'E')
    ensures NextToken(s, i) == Cursor(i + 1, Number(DigitValue(s[i]) as real))
  {
    RunEndIs(s, i, i, IsSpace);
    ScanInteger(s, i, i + 1);
    assert s[i..i + 1] == [s[i]];
    assert s[i..i + 1][..0] == [];
  }

  /** One of the seven operator characters is a one-character token. */
  lemma LexSymbolAt(s: string, i: nat)
    requires i < |s| && s[i] in "+-*/^()"
    ensures NextToken(s, i) == Cursor(i + 1, SymbolToken(s[i]))
  {
    RunEndIs(s, i, i, IsSpace);
  }

  /** A maximal run of letters is one word token. */
  lemma LexWordAt(s: string, i: nat, j: nat)
    requires i < j <= |s|
    requires forall k | i <= k < j :: IsAlpha(s[k])
    requires j == |s| || !IsAlpha(s[j])
    ensures NextToken(s, i) == Cursor(j, ClassifyWord(Truncate(s[i..j])))
  {
    RunEndIs(s, i, i, IsSpace);
    RunEndIs(s, i, j, IsAlpha);
  }

  /** A lone 'x' is the variable. */
  lemma LexVariableAt(s: string, i: nat)
    requires i < |s| && s[i] == 'x'
    requires i + 1 == |s| || !IsAlpha(s[i + 1])
    ensures NextToken(s, i) == Cursor(i + 1, Variable)
  {
    LexWordAt(s, i, i + 1);
    assert s[i..i + 1] == "x";
  }

  /** A function name not followed by another letter is that function's token. */
  lemma LexFunctionAt(s: string, i: nat, f: FuncType)
    requires f != NoFunc
    requires i + |FuncName(f)| <= |s| && s[i..i + |FuncName(f)|] == FuncName(f)
    requires i + |FuncName(f)| == |s| || !IsAlpha(s[i + |FuncName(f)|])
    ensures NextToken(s, i) == Cursor(i + |FuncName(f)|, Function(f))
  {
    var j := i + |FuncName(f)|;
    forall k | i <= k < j
      ensures IsAlpha(s[k])
    {
      assert s[k] == FuncName(f)[k - i];
    }
    LexWordAt(s, i, j);
    WordClassification(s[i..j]);
  }

  /** A white-space character before a token is skipped. */
  lemma LexSpaceAt(s: string, i: nat)
    requires i < |s| && IsSpace(s[i])
    ensures NextToken(s, i) == NextToken(s, i + 1)
  {
  }

  // ----
  // "2+3*4": '*' binds tighter than '+'

  lemma LexSum(s: string)
    requires s == "2+3*4"
    ensures Start(s) == Cursor(1, Number(2.0))
    ensures NextToken(s, 1) == Cursor(2, Plus)
    ensures NextToken(s, 2) == Cursor(3, Number(3.0))
    ensures NextToken(s, 3) == Cursor(4, Multiply)
    ensures NextToken(s, 4) == Cursor(5, Number(4.0))
    ensures NextToken(s, 5) == Cursor(5, EOF)
  {
    LexDigitAt(s, 0);
    LexSymbolAt(s, 1);
    LexDigitAt(s, 2);
    LexSymbolAt(s, 3);
    LexDigitAt(s, 4);
    EndOfInput(s);
  }

  lemma ProductBindsTighterThanSum(s: string)
    requires s == "2+3*4"
    ensures ParseFormula(s) == Bin(Add, Num(2.0), Bin(Mul, Num(3.0), Num(4.0)))
  {
    LexSum(s);
    var c1, c2, c3, c4, c5, c6 := Cursor(1, Number(2.0)), Cursor(2, Plus), Cursor(3, Number(3.0)), Cursor(4, Multiply), Cursor(5, Number(4.0)), Cursor(5, EOF);
    assert ParsePower(s, c1) == (Num(2.0), c2);
    assert ParseTerm(s, c1) == (Num(2.0), c2);
    assert ParsePower(s, c3) == (Num(3.0), c4);
    assert ParsePower(s, c5) == (Num(4.0), c6);
    assert TermRest(s, Num(3.0), c4) == (Bin(Mul, Num(3.0), Num(4.0)), c6);
    assert ParseTerm(s, c3) == (Bin(Mul, Num(3.0), Num(4.0)), c6);
    assert ExprRest(s, Num(2.0), c2) == (Bin(Add, Num(2.0), Bin(Mul, Num(3.0), Num(4.0))), c6);
    assert ParseExpression(s, c1) == (Bin(Add, Num(2.0), Bin(Mul, Num(3.0), Num(4.0))), c6);
  }

  lemma SumValue(s: string, x: real, lib: MathLib)
    requires s == "2+3*4"
    ensures EvaluateFormula(s, x, lib) == 14.0
  {
    ProductBindsTighterThanSum(s);
    SumTreeValue(x, lib);
    ValueOfTree(s, Bin(Add, Num(2.0), Bin(Mul, Num(3.0), Num(4.0))), x, lib);
  }

  lemma SumTreeValue(x: real, lib: MathLib)
    ensures Eval(Bin(Add, Num(2.0), Bin(Mul, Num(3.0), Num(4.0))), x, lib) == 14.0
  {
    assert Eval(Bin(Mul, Num(3.0), Num(4.0)), x, lib) == 12.0;
  }

  // ----
  // "2^3^2": '^' groups to the right

  lemma LexTower(s: string)
    requires s == "2^3^2"
    ensures Start(s) == Cursor(1, Number(2.0))
    ensures NextToken(s, 1) == Cursor(2, Power)
    ensures NextToken(s, 2) == Cursor(3, Number(3.0))
    ensures NextToken(s, 3) == Cursor(4, Power)
    ensures NextToken(s, 4) == Cursor(5, Number(2.0))
    ensures NextToken(s, 5) == Cursor(5, EOF)
  {
    LexDigitAt(s, 0);
    LexSymbolAt(s, 1);
    LexDigitAt(s, 2);
    LexSymbolAt(s, 3);
    LexDigitAt(s, 4);
    EndOfInput(s);
  }

  lemma PowerGroupsToTheRight(s: string)
    requires s == "2^3^2"
    ensures ParseFormula(s) == Bin(Pow, Num(2.0), Bin(Pow, Num(3.0), Num(2.0)))
  {
    LexTower(s);
    var c1, c2, c3, c4, c5, c6 := Cursor(1, Number(2.0)), Cursor(2, Power), Cursor(3, Number(3.0)), Cursor(4, Power), Cursor(5, Number(2.0)), Cursor(5, EOF);
    assert ParsePower(s, c5) == (Num(2.0), c6);
    assert PowerRest(s, Num(3.0), c4) == (Bin(Pow, Num(3.0), Num(2.0)), c6);
    assert ParsePower(s, c3) == (Bin(Pow, Num(3.0), Num(2.0)), c6);
    assert PowerRest(s, Num(2.0), c2) == (Bin(Pow, Num(2.0), Bin(Pow, Num(3.0), Num(2.0))), c6);
    assert ParsePower(s, c1) == (Bin(Pow, Num(2.0), Bin(Pow, Num(3.0), Num(2.0))), c6);
    assert ParseTerm(s, c1) == (Bin(Pow, Num(2.0), Bin(Pow, Num(3.0), Num(2.0))), c6);
    assert ParseExpression(s, c1) == (Bin(Pow, Num(2.0), Bin(Pow, Num(3.0), Num(2.0))), c6);
  }

  // ----
  // "8/2/2" and "5-2-1": '/' and '-' group to the left

  lemma LexQuotient(s: string)
    requires s == "8/2/2"
    ensures Start(s) == Cursor(1, Number(8.0))
    ensures NextToken(s, 1) == Cursor(2, Divide)
    ensures NextToken(s, 2) == Cursor(3, Number(2.0))
    ensures NextToken(s, 3) == Cursor(4, Divide)
    ensures NextToken(s, 4) == Cursor(5, Number(2.0))
    ensures NextToken(s, 5) == Cursor(5, EOF)
  {
    LexDigitAt(s, 0);
    LexSymbolAt(s, 1);
    LexDigitAt(s, 2);
    LexSymbolAt(s, 3);
    LexDigitAt(s, 4);
    EndOfInput(s);
  }

  lemma DivisionGroupsToTheLeft(s: string)
    requires s == "8/2/2"
    ensures ParseFormula(s) == Bin(Div, Bin(Div, Num(8.0), Num(2.0)), Num(2.0))
  {
    LexQuotient(s);
    var c1, c2, c3, c4, c5, c6 := Cursor(1, Number(8.0)), Cursor(2, Divide), Cursor(3, Number(2.0)), Cursor(4, Divide), Cursor(5, Number(2.0)), Cursor(5, EOF);
    assert ParsePower(s, c1) == (Num(8.0), c2);
    assert ParsePower(s, c3) == (Num(2.0), c4);
    assert ParsePower(s, c5) == (Num(2.0), c6);
    assert TermRest(s, Bin(Div, Num(8.0), Num(2.0)), c4) == (Bin(Div, Bin(Div, Num(8.0), Num(2.0)), Num(2.0)), c6);
    assert TermRest(s, Num(8.0), c2) == (Bin(Div, Bin(Div, Num(8.0), Num(2.0)), Num(2.0)), c6);
    assert ParseTerm(s, c1) == (Bin(Div, Bin(Div, Num(8.0), Num(2.0)), Num(2.0)), c6);
    assert ParseExpression(s, c1) == (Bin(Div, Bin(Div, Num(8.0), Num(2.0)), Num(2.0)), c6);
  }

  lemma QuotientValue(s: string, x: real, lib: MathLib)
    requires s == "8/2/2"
    ensures EvaluateFormula(s, x, lib) == 2.0
  {
    DivisionGroupsToTheLeft(s);
    QuotientTreeValue(x, lib);
    ValueOfTree(s, Bin(Div, Bin(Div, Num(8.0), Num(2.0)), Num(2.0)), x, lib);
  }

  lemma QuotientTreeValue(x: real, lib: MathLib)
    ensures Eval(Bin(Div, Bin(Div, Num(8.0), Num(2.0)), Num(2.0)), x, lib) == 2.0
  {
    assert Eval(Bin(Div, Num(8.0), Num(2.0)), x, lib) == 4.0;
  }

  lemma LexDifference(s: string)
    requires s == "5-2-1"
    ensures Start(s) == Cursor(1, Number(5.0))
    ensures NextToken(s, 1) == Cursor(2, Minus)
    ensures NextToken(s, 2) == Cursor(3, Number(2.0))
    ensures NextToken(s, 3) == Cursor(4, Minus)
    ensures NextToken(s, 4) == Cursor(5, Number(1.0))
    ensures NextToken(s, 5) == Cursor(5, EOF)
  {
    LexDigitAt(s, 0);
    LexSymbolAt(s, 1);
    LexDigitAt(s, 2);
    LexSymbolAt(s, 3);
    LexDigitAt(s, 4);
    EndOfInput(s);
  }

  lemma SubtractionGroupsToTheLeft(s: string)
    requires s == "5-2-1"
    ensures ParseFormula(s) == Bin(Sub, Bin(Sub, Num(5.0), Num(2.0)), Num(1.0))
  {
    LexDifference(s);
    var c1, c2, c3, c4, c5, c6 := Cursor(1, Number(5.0)), Cursor(2, Minus), Cursor(3, Number(2.0)), Cursor(4, Minus), Cursor(5, Number(1.0)), Cursor(5, EOF);
    assert ParsePower(s, c1) == (Num(5.0), c2);
    assert ParseTerm(s, c1) == (Num(5.0), c2);
    assert ParsePower(s, c3) == (Num(2.0), c4);
    assert ParseTerm(s, c3) == (Num(2.0), c4);
    assert ParsePower(s, c5) == (Num(1.0), c6);
    assert ParseTerm(s, c5) == (Num(1.0), c6);
    assert ExprRest(s, Bin(Sub, Num(5.0), Num(2.0)), c4) == (Bin(Sub, Bin(Sub, Num(5.0), Num(2.0)), Num(1.0)), c6);
    assert ExprRest(s, Num(5.0), c2) == (Bin(Sub, Bin(Sub, Num(5.0), Num(2.0)), Num(1.0)), c6);
    assert ParseExpression(s, c1) == (Bin(Sub, Bin(Sub, Num(5.0), Num(2.0)), Num(1.0)), c6);
  }

  // ----
  // "-x^2" and "sin x^2": a prefix operator takes only the factor after it

  lemma LexNegatedSquare(s: string)
    requires s == "-x^2"
    ensures Start(s) == Cursor(1, Minus)
    ensures NextToken(s, 1) == Cursor(2, Variable)
    ensures NextToken(s, 2) == Cursor(3, Power)
    ensures NextToken(s, 3) == Cursor(4, Number(2.0))
    ensures NextToken(s, 4) == Cursor(4, EOF)
  {
    LexSymbolAt(s, 0);
    LexVariableAt(s, 1);
    LexSymbolAt(s, 2);
    LexDigitAt(s, 3);
    EndOfInput(s);
  }

  lemma NegationBeforePower(s: string)
    requires s == "-x^2"
    ensures ParseFormula(s) == Bin(Pow, Neg(Var), Num(2.0))
  {
    LexNegatedSquare(s);
    var c0, c1, c2, c3, c4 := Cursor(1, Minus), Cursor(2, Variable), Cursor(3, Power), Cursor(4, Number(2.0)), Cursor(4, EOF);
    assert ParseFactor(s, c1) == (Var, c2);
    assert ParseFactor(s, c0) == (Neg(Var), c2);
    assert ParsePower(s, c3) == (Num(2.0), c4);
    assert PowerRest(s, Neg(Var), c2) == (Bin(Pow, Neg(Var), Num(2.0)), c4);
    assert ParsePower(s, c0) == (Bin(Pow, Neg(Var), Num(2.0)), c4);
    assert ParseTerm(s, c0) == (Bin(Pow, Neg(Var), Num(2.0)), c4);
    assert ParseExpression(s, c0) == (Bin(Pow, Neg(Var), Num(2.0)), c4);
  }

  lemma LexSineSquare(s: string)
    requires s == "sin x^2"
    ensures Start(s) == Cursor(3, Function(Sin))
    ensures NextToken(s, 3) == Cursor(5, Variable)
    ensures NextToken(s, 5) == Cursor(6, Power)
    ensures NextToken(s, 6) == Cursor(7, Number(2.0))
    ensures NextToken(s, 7) == Cursor(7, EOF)
  {
    assert s[0..3] == FuncName(Sin);
    LexFunctionAt(s, 0, Sin);
    LexSpaceAt(s, 3);
    LexVariableAt(s, 4);
    LexSymbolAt(s, 5);
    LexDigitAt(s, 6);
    EndOfInput(s);
  }

  lemma FunctionBeforePower(s: string)
    requires s == "sin x^2"
    ensures ParseFormula(s) == Bin(Pow, Call(Sin, Var), Num(2.0))
  {
    LexSineSquare(s);
    var c0, c1, c2, c3, c4 := Cursor(3, Function(Sin)), Cursor(5, Variable), Cursor(6, Power), Cursor(7, Number(2.0)), Cursor(7, EOF);
    assert ParseFactor(s, c1) == (Var, c2);
    assert ParseFactor(s, c0) == (Call(Sin, Var), c2);
    assert ParsePower(s, c3) == (Num(2.0), c4);
    assert PowerRest(s, Call(Sin, Var), c2) == (Bin(Pow, Call(Sin, Var), Num(2.0)), c4);
    assert ParsePower(s, c0) == (Bin(Pow, Call(Sin, Var), Num(2.0)), c4);
    assert ParseTerm(s, c0) == (Bin(Pow, Call(Sin, Var), Num(2.0)), c4);
    assert ParseExpression(s, c0) == (Bin(Pow, Call(Sin, Var), Num(2.0)), c4);
  }

  // ----
  // "abs -3": a function applies to a factor without parentheses, and fabs is the one
  // function with a fixed meaning

  lemma LexAbsolute(s: string)
    requires s == "abs -3"
    ensures Start(s) == Cursor(3, Function(Abs))
    ensures NextToken(s, 3) == Cursor(5, Minus)
    ensures NextToken(s, 5) == Cursor(6, Number(3.0))
    ensures NextToken(s, 6) == Cursor(6, EOF)
  {
    assert s[0..3] == FuncName(Abs);
    LexFunctionAt(s, 0, Abs);
    LexSpaceAt(s, 3);
    LexSymbolAt(s, 4);
    LexDigitAt(s, 5);
    EndOfInput(s);
  }

  lemma AbsoluteOfNegation(s: string)
    requires s == "abs -3"
    ensures ParseFormula(s) == Call(Abs, Neg(Num(3.0)))
  {
    LexAbsolute(s);
    var c0, c1, c2, c3 := Cursor(3, Function(Abs)), Cursor(5, Minus), Cursor(6, Number(3.0)), Cursor(6, EOF);
    var t := Call(Abs, Neg(Num(3.0)));
    assert ParseFactor(s, c2) == (Num(3.0), c3);
    assert ParseFactor(s, c1) == (Neg(Num(3.0)), c3);
    assert ParseFactor(s, c0) == (t, c3);
    assert ParsePower(s, c0) == (t, c3);
    assert ParseTerm(s, c0) == (t, c3);
    assert ParseExpression(s, c0) == (t, c3);
  }

  lemma AbsoluteValue(s: string, x: real, lib: MathLib)
    requires s == "abs -3"
    ensures EvaluateFormula(s, x, lib) == 3.0
  {
    AbsoluteOfNegation(s);
    AbsoluteTreeValue(x, lib);
    ValueOfTree(s, Call(Abs, Neg(Num(3.0))), x, lib);
  }

  lemma AbsoluteTreeValue(x: real, lib: MathLib)
    ensures Eval(Call(Abs, Neg(Num(3.0))), x, lib) == 3.0
  {
    assert Eval(Neg(Num(3.0)), x, lib) == -3.0;
  }

  // ----
  // "1/x" at x = 0: a zero divisor gives 0

  lemma LexReciprocal(s: string)
    requires s == "1/x"
    ensures Start(s) == Cursor(1, Number(1.0))
    ensures NextToken(s, 1) == Cursor(2, Divide)
    ensures NextToken(s, 2) == Cursor(3, Variable)
    ensures NextToken(s, 3) == Cursor(3, EOF)
  {
    LexDigitAt(s, 0);
    LexSymbolAt(s, 1);
    LexVariableAt(s, 2);
    EndOfInput(s);
  }

  lemma ReciprocalTree(s: string)
    requires s == "1/x"
    ensures ParseFormula(s) == Bin(Div, Num(1.0), Var)
  {
    LexReciprocal(s);
    var c1, c2, c3, c4 := Cursor(1, Number(1.0)), Cursor(2, Divide), Cursor(3, Variable), Cursor(3, EOF);
    assert ParsePower(s, c1) == (Num(1.0), c2);
    assert ParsePower(s, c3) == (Var, c4);
    assert TermRest(s, Num(1.0), c2) == (Bin(Div, Num(1.0), Var), c4);
    assert ParseTerm(s, c1) == (Bin(Div, Num(1.0), Var), c4);
    assert ParseExpression(s, c1) == (Bin(Div, Num(1.0), Var), c4);
  }

  lemma ReciprocalAtZero(s: string, lib: MathLib)
    requires s == "1/x"
    ensures EvaluateFormula(s, 0.0, lib) == 0.0
  {
    DivisionByZeroIsZero(Num(1.0), Var, 0.0, lib);
    ReciprocalTree(s);
    ValueOfTree(s, Bin(Div, Num(1.0), Var), 0.0, lib);
  }

  // ----
  // Malformed input is accepted

  lemma LexOpenSum(s: string)
    requires s == "(1+2"
    ensures Start(s) == Cursor(1, LParen)
    ensures NextToken(s, 1) == Cursor(2, Number(1.0))
    ensures NextToken(s, 2) == Cursor(3, Plus)
    ensures NextToken(s, 3) == Cursor(4, Number(2.0))
    ensures NextToken(s, 4) == Cursor(4, EOF)
  {
    LexSymbolAt(s, 0);
    LexDigitAt(s, 1);
    LexSymbolAt(s, 2);
    LexDigitAt(s, 3);
    EndOfInput(s);
  }

  /** A missing ')' is not an error: "(1+2" is 1+2. */
  lemma UnclosedParenthesis(s: string)
    requires s == "(1+2"
    ensures ParseFormula(s) == Bin(Add, Num(1.0), Num(2.0))
  {
    LexOpenSum(s);
    var c0, c1, c2, c3, c4 := Cursor(1, LParen), Cursor(2, Number(1.0)), Cursor(3, Plus), Cursor(4, Number(2.0)), Cursor(4, EOF);
    assert ParsePower(s, c1) == (Num(1.0), c2);
    assert ParseTerm(s, c1) == (Num(1.0), c2);
    assert ParsePower(s, c3) == (Num(2.0), c4);
    assert ParseTerm(s, c3) == (Num(2.0), c4);
    assert ExprRest(s, Num(1.0), c2) == (Bin(Add, Num(1.0), Num(2.0)), c4);
    assert ParseExpression(s, c1) == (Bin(Add, Num(1.0), Num(2.0)), c4);
    assert ParseFactor(s, c0) == (Bin(Add, Num(1.0), Num(2.0)), c4);
    assert ParsePower(s, c0) == (Bin(Add, Num(1.0), Num(2.0)), c4);
    assert ParseTerm(s, c0) == (Bin(Add, Num(1.0), Num(2.0)), c4);
    assert ParseExpression(s, c0) == (Bin(Add, Num(1.0), Num(2.0)), c4);
  }

  lemma LexStrayParenthesis(s: string)
    requires s == "2)+5"
    ensures Start(s) == Cursor(1, Number(2.0))
    ensures NextToken(s, 1) == Cursor(2, RParen)
    ensures NextToken(s, 2) == Cursor(3, Plus)
    ensures NextToken(s, 3) == Cursor(4, Number(5.0))
    ensures NextToken(s, 4) == Cursor(4, EOF)
  {
    LexDigitAt(s, 0);
    LexSymbolAt(s, 1);
    LexSymbolAt(s, 2);
    LexDigitAt(s, 3);
    EndOfInput(s);
  }

  /** Tokens after a complete expression are ignored: "2)+5" is 2, and parsing stops at the ')'. */
  lemma TrailingTokensIgnored(s: string)
    requires s == "2)+5"
    ensures ParseFormula(s) == Num(2.0)
    ensures ParseExpression(s, Start(s)).1 == Cursor(2, RParen)
  {
    LexStrayParenthesis(s);
    var c1, c2 := Cursor(1, Number(2.0)), Cursor(2, RParen);
    assert ParsePower(s, c1) == (Num(2.0), c2);
    assert ParseTerm(s, c1) == (Num(2.0), c2);
    assert ParseExpression(s, c1) == (Num(2.0), c2);
  }

  lemma LexJuxtaposition(s: string)
    requires s == "2x"
    ensures Start(s) == Cursor(1, Number(2.0))
    ensures NextToken(s, 1) == Cursor(2, Variable)
    ensures NextToken(s, 2) == Cursor(2, EOF)
  {
    LexDigitAt(s, 0);
    LexVariableAt(s, 1);
    EndOfInput(s);
  }

  /** There is no implicit multiplication: "2x" is 2, and the 'x' is left unread. */
  lemma NoImplicitProduct(s: string)
    requires s == "2x"
    ensures ParseFormula(s) == Num(2.0)
    ensures ParseExpression(s, Start(s)).1 == Cursor(2, Variable)
  {
    LexJuxtaposition(s);
    var c1, c2 := Cursor(1, Number(2.0)), Cursor(2, Variable);
    assert ParsePower(s, c1) == (Num(2.0), c2);
    assert ParseTerm(s, c1) == (Num(2.0), c2);
    assert ParseExpression(s, c1) == (Num(2.0), c2);
  }

  lemma LexUnknownWord(s: string)
    requires s == "y+1"
    ensures Start(s) == Cursor(1, Error)
    ensures NextToken(s, 1) == Cursor(2, Plus)
    ensures NextToken(s, 2) == Cursor(3, Number(1.0))
    ensures NextToken(s, 3) == Cursor(3, EOF)
  {
    LexWordAt(s, 0, 1);
    assert s[0..1] == "y";
    LexSymbolAt(s, 1);
    LexDigitAt(s, 2);
    EndOfInput(s);
  }

  /** An unknown word stops the parse before anything is read: "y+1" is 0. */
  lemma UnknownWordIsZero(s: string)
    requires s == "y+1"
    ensures ParseFormula(s) == Num(0.0)
    ensures ParseExpression(s, Start(s)).1 == Cursor(1, Error)
  {
    LexUnknownWord(s);
    var c := Cursor(1, Error);
    assert ParsePower(s, c) == (Num(0.0), c);
    assert ParseTerm(s, c) == (Num(0.0), c);
    assert ParseExpression(s, c) == (Num(0.0), c);
  }
}
