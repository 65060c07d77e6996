/**
 * The Parser object of parser.c: a cursor over the input with the current token, advanced by
 * GetNextToken and consumed by the recursive-descent methods.  Where the C functions combine
 * values on the fly, these methods combine the trees that evaluation order implies (the same
 * accumulating loops over `left`); Evaluate then takes the value of the tree.  Each method is
 * proved against the functional parser of module Grammar: it returns the tree Grammar builds
 * and leaves the cursor where Grammar does.
 */
module Parsing {
  import opened Tokens
  import opened Lexer
  import opened Expressions
  import opened Grammar

  class Parser {
    const input: string
    var pos: nat
    var current: Token

    ghost predicate Valid()
      reads this
    {
      pos <= |input|
    }

    /** The cursor this parser is at. */
    function State(): (c: Cursor)
      reads this
    {
      Cursor(pos, current)
    }

    /** Parser_Init: start at position 0 and read the first token. */
    constructor (input: string)
      ensures Valid() && this.input == input
      ensures State() == Start(input)
    {
      this.input := input;
      pos := 0;
      current := EOF;
      new;
      GetNextToken();
    }

    /** parser.c's GetNextToken: skip white space, then read one token and advance past it. */
    method GetNextToken()
      requires Valid()
      modifies this
      ensures Valid()
      ensures State() == NextToken(input, old(pos))
    {
      SkipWhiteSpace();
      if Peek(input, pos) == NUL {
        current := EOF;
        return;
      }
      var c := input[pos];
      if IsDigit(c) || c == '.' {
        var scanned := ScanNumber(input, pos);
        current := Number(scanned.0);
        pos := pos + scanned.1;
        return;
      }
      if IsAlpha(c) {
        ReadWord();
        return;
      }
      current := SymbolToken(c);
      pos := pos + 1;
    }

    /** The white-space loop at the head of GetNextToken. */
    method SkipWhiteSpace()
      requires Valid()
      modifies this
      ensures Valid() && current == old(current)
      ensures pos == RunEnd(input, old(pos), IsSpace)
    {
      while Peek(input, pos) != NUL && IsSpace(Peek(input, pos))
        invariant old(pos) <= pos <= |input|
        invariant RunEnd(input, pos, IsSpace) == RunEnd(input, old(pos), IsSpace)
        invariant current == old(current)
        decreases |input| - pos
      {
        pos := pos + 1;
      }
    }

    /**
     * The word branch of GetNextToken: consume the run of letters and compare its first
     * MaxWordLength letters with the known names.
     */
    method ReadWord()
      requires Valid() && IsAlpha(Peek(input, pos))
      modifies this
      ensures Valid() && old(pos) < pos
      ensures pos == RunEnd(input, old(pos), IsAlpha)
      ensures current == ClassifyWord(Truncate(input[old(pos)..pos]))
    {
      var start := pos;
      while IsAlpha(Peek(input, pos))
        invariant start <= pos <= |input|
        invariant RunEnd(input, pos, IsAlpha) == RunEnd(input, start, IsAlpha)
        decreases |input| - pos
      {
        pos := pos + 1;
      }
      var len := pos - start;
      if len > MaxWordLength {
        len := MaxWordLength;
      }
      assert input[start..start + len] == Truncate(input[start..pos]);
      current := ClassifyWord(input[start..start + len]);
    }

    method Factor() returns (e: Expr)
      requires Valid()
      modifies this
      ensures Valid()
      ensures (e, State()) == ParseFactor(input, old(State()))
      decreases Measure(input, State()), 0
    {
      var t := current;
      if t.Number? {
        GetNextToken();
        e := Num(t.value);
      } else if t == Variable {
        GetNextToken();
        e := Var;
      } else if t == LParen {
        GetNextToken();
        e := Expression();
        if current == RParen {
          GetNextToken();
        }
      } else if t == Minus {
        GetNextToken();
        var operand := Factor();
        e := Neg(operand);
      } else if t.Function? {
        var f := t.func;
        GetNextToken();
        var arg := Factor();
        e := Call(f, arg);
      } else {
        e := Num(0.0);
      }
    }

    method Power() returns (e: Expr)
      requires Valid()
      modifies this
      ensures Valid()
      ensures (e, State()) == ParsePower(input, old(State()))
      decreases Measure(input, State()), 1
    {
      ghost var entry := State();
      e := Factor();
      while current == Token.Power
        invariant Valid()
        invariant Measure(input, State()) <= Measure(input, entry)
        invariant ParsePower(input, entry) == PowerRest(input, e, State())
        decreases Measure(input, State())
      {
        GetNextToken();
        var right := Power();  // right associative
        e := Bin(Pow, e, right);
      }
    }

    method Term() returns (e: Expr)
      requires Valid()
      modifies this
      ensures Valid()
      ensures (e, State()) == ParseTerm(input, old(State()))
      decreases Measure(input, State()), 2
    {
      ghost var entry := State();
      e := Power();
      while current == Multiply || current == Divide
        invariant Valid()
        invariant Measure(input, State()) <= Measure(input, entry)
        invariant ParseTerm(input, entry) == TermRest(input, e, State())
        decreases Measure(input, State())
      {
        var op := current;
        GetNextToken();
        var right := Power();
        e := Bin(if op == Multiply then Mul else Div, e, right);
      }
    }

    method Expression() returns (e: Expr)
      requires Valid()
      modifies this
      ensures Valid()
      ensures (e, State()) == ParseExpression(input, old(State()))
      decreases Measure(input, State()), 3
    {
      ghost var entry := State();
      e := Term();
      while current == Plus || current == Minus
        invariant Valid()
        invariant Measure(input, State()) <= Measure(input, entry)
        invariant ParseExpression(input, entry) == ExprRest(input, e, State())
        decreases Measure(input, State())
      {
        var op := current;
        GetNextToken();
        var right := Term();
        e := Bin(if op == Plus then Add else Sub, e, right);
      }
    }

    /** Parser_Evaluate: one Expression from the current token; what follows it is ignored. */
    method Evaluate(x: real, lib: MathLib) returns (v: real)
      requires Valid()
      modifies this
      ensures Valid()
      ensures v == Eval(ParseExpression(input, old(State())).0, x, lib)
      ensures State() == ParseExpression(input, old(State())).1
    {
      var e := Expression();
      v := Eval(e, x, lib);
    }
  }

  /** Parser_Init followed by Parser_Evaluate on a fresh parser: the value of the formula at x. */
  method EvaluateAt(input: string, x: real, lib: MathLib) returns (v: real)
    ensures v == EvaluateFormula(input, x, lib)
  {
    var p := new Parser(input);
    v := p.Evaluate(x, lib);
  }
}
