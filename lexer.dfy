/**
 * The hand-written lexer of parser.c, as pure functions.  The input is a C string: reading
 * past its end (or at an embedded NUL) yields NUL, which ends the token stream.
 */
module Lexer {
  import opened Tokens
  import opened Powers

  const NUL: char := '\0'

  /** Only the first MaxWordLength letters of a word are compared with the known names. */
  const MaxWordLength: nat := 31

  /** The character at i, or NUL at and beyond the end. */
  function Peek(s: string, i: nat): (c: char) {
    if i < |s| then s[i] else NUL
  }

  // Character classes of the C locale.
  predicate IsSpace(c: char) {
    c == ' ' || c == '\t' || c == '\n' || c == '\U{0B}' || c == '\U{0C}' || c == '\r'
  }

  predicate IsDigit(c: char) {
    '0' <= c <= '9'
  }

  predicate IsAlpha(c: char) {
    ('a' <= c <= 'z') || ('A' <= c <= 'Z')
  }

  /** The end of the maximal run of characters satisfying p that starts at i. */
  function RunEnd(s: string, i: nat, p: char -> bool): (j: nat)
    requires i <= |s|
    ensures i <= j <= |s|
    ensures forall k | i <= k < j :: p(s[k])
    ensures !p(Peek(s, j)) || j == |s|
    decreases |s| - i
  {
    if i < |s| && p(s[i]) then RunEnd(s, i + 1, p) else i
  }

  /** A run is determined by its two ends. */
  lemma {:induction false} RunEndIs(s: string, i: nat, j: nat, p: char -> bool)
    requires i <= j <= |s|
    requires forall k | i <= k < j :: p(s[k])
    requires j == |s| || !p(s[j])
    ensures RunEnd(s, i, p) == j
    decreases j - i
  {
    if i < j {
      RunEndIs(s, i + 1, j, p);
    }
  }

  function DigitValue(c: char): (d: nat)
    requires IsDigit(c)
  {
    c as int - '0' as int
  }

  predicate AllDigits(ds: string) {
    forall k | 0 <= k < |ds| :: IsDigit(ds[k])
  }

  /** The natural number a string of decimal digits denotes. */
  function DigitsValue(ds: string): (n: nat)
    requires AllDigits(ds)
  {
    if ds == [] then 0 else 10 * DigitsValue(ds[..|ds| - 1]) + DigitValue(ds[|ds| - 1])
  }

  /**
   * The optional exponent part "e[+-]digits" at j of a decimal number: the exponent and the
   * position after it.  Without digits after the marker nothing is consumed.
   */
  function ScanExponent(s: string, j: nat): (r: (int, nat))
    requires j <= |s|
    ensures j <= r.1 <= |s|
    ensures r.1 == j ==> r.0 == 0
  {
    if Peek(s, j) == 'e' || Peek(s, j) == 'E' then
      var signed := Peek(s, j + 1) == '+' || Peek(s, j + 1) == '-';
      var d := if signed then j + 2 else j + 1;
      var e := RunEnd(s, d, IsDigit);
      if e == d then (0, j)
      else
        var n := DigitsValue(s[d..e]);
        (if Peek(s, j + 1) == '-' then -(n as int) else n, e)
    else (0, j)
  }

  /**
   * The decimal subset of strtod at i: digits, an optional '.' with more digits, and an
   * optional exponent.  Returns the value and the number of characters consumed, which is 0
   * when there is no digit in the mantissa (a lone ".").
   */
  function ScanNumber(s: string, i: nat): (r: (real, nat))
    requires i <= |s|
    ensures i + r.1 <= |s|
    ensures r.1 == 0 <==> !IsDigit(Peek(s, i)) && !(Peek(s, i) == '.' && IsDigit(Peek(s, i + 1)))
    ensures r.1 == 0 ==> r.0 == 0.0
  {
    var a := RunEnd(s, i, IsDigit);
    var point := Peek(s, a) == '.';
    var b := if point then RunEnd(s, a + 1, IsDigit) else a;
    var whole := s[i..a];
    var frac := if point then s[a + 1..b] else [];
    if |whole| + |frac| == 0 then (0.0, 0)
    else
      var mantissa := DigitsValue(whole) as real + ScaleByPow10(DigitsValue(frac) as real, -|frac|);
      var (exponent, end) := ScanExponent(s, b);
      (ScaleByPow10(mantissa, exponent), end - i)
  }

  /** An integer literal not followed by '.', an exponent marker or another digit. */
  lemma ScanInteger(s: string, i: nat, j: nat)
    requires i < j <= |s| && AllDigits(s[i..j])
    requires j == |s| || (!IsDigit(s[j]) && s[j] != '.' && s[j] != 'e' && s[j] != 'E')
    ensures ScanNumber(s, i) == (DigitsValue(s[i..j]) as real, j - i)
  {
    RunEndIs(s, i, j, IsDigit);
  }

  /** Only the first MaxWordLength letters of a word take part in the comparison. */
  function Truncate(w: string): (t: string)
    ensures |t| <= MaxWordLength
  {
    if |w| > MaxWordLength then w[..MaxWordLength] else w
  }

  /** The token for a (truncated) word: the variable, a function name, or an error. */
  function ClassifyWord(buf: string): (t: Token)
    ensures t.Variable? || t.Function? || t.Error?
  {
    if buf == "x" then Variable
    else if buf == "sin" then Function(Sin)
    else if buf == "cos" then Function(Cos)
    else if buf == "tan" then Function(Tan)
    else if buf == "sqrt" then Function(Sqrt)
    else if buf == "log" then Function(Log)
    else if buf == "exp" then Function(Exp)
    else if buf == "abs" then Function(Abs)
    else Error
  }

  /** The token of a one-character symbol; any other character is an error. */
  function SymbolToken(c: char): (t: Token)
    ensures t.HasWidth()
  {
    match c
    case '+' => Plus
    case '-' => Minus
    case '*' => Multiply
    case '/' => Divide
    case '^' => Power
    case '(' => LParen
    case ')' => RParen
    case _ => Error
  }

  /**
   * The cursor GetNextToken leaves behind when it starts at position i: it skips white space,
   * then reads end of input, a number, a word or a single symbol.
   */
  function NextToken(s: string, i: nat): (r: Cursor)
    requires i <= |s|
    ensures i <= r.pos <= |s|
    ensures r.tok.HasWidth() ==> i < r.pos
    ensures r.tok.EOF? <==> Peek(s, r.pos) == NUL && RunEnd(s, i, IsSpace) == r.pos
  {
    var q := RunEnd(s, i, IsSpace);
    var c := Peek(s, q);
    if c == NUL then Cursor(q, EOF)
    else if IsDigit(c) || c == '.' then
      var (v, n) := ScanNumber(s, q);
      Cursor(q + n, Number(v))
    else if IsAlpha(c) then
      var e := RunEnd(s, q, IsAlpha);
      Cursor(e, ClassifyWord(Truncate(s[q..e])))
    else Cursor(q + 1, SymbolToken(c))
  }

  // ---------------------------------------------------------------------------------------
  // Properties of the lexer

  /** White space before a token is skipped: lexing from i is lexing from the first non-space. */
  lemma SkipsWhiteSpace(s: string, i: nat)
    requires i <= |s|
    ensures var q := RunEnd(s, i, IsSpace);
      && (forall k | i <= k < q :: IsSpace(s[k]))
      && !IsSpace(Peek(s, q))
      && NextToken(s, i) == NextToken(s, q)
  {
    var q := RunEnd(s, i, IsSpace);
    RunEndIs(s, q, q, IsSpace);
  }

  /** At the end of the string the token is EOF and the cursor does not move. */
  lemma EndOfInput(s: string)
    ensures NextToken(s, |s|) == Cursor(|s|, EOF)
  {
  }

  /** Once EOF is reached, lexing again changes nothing. */
  lemma EofIsStable(s: string, i: nat)
    requires i <= |s| && NextToken(s, i).tok.EOF?
    ensures NextToken(s, NextToken(s, i).pos) == NextToken(s, i)
  {
    var r := NextToken(s, i);
    RunEndIs(s, r.pos, r.pos, IsSpace);
  }

  /** A word consumes its whole maximal run of letters. */
  lemma WordIsMaximal(s: string, i: nat)
    requires i <= |s|
    requires IsAlpha(Peek(s, RunEnd(s, i, IsSpace)))
    ensures var q, r := RunEnd(s, i, IsSpace), NextToken(s, i);
      && q < r.pos
      && (forall k | q <= k < r.pos :: IsAlpha(s[k]))
      && !IsAlpha(Peek(s, r.pos))
      && r.tok == ClassifyWord(Truncate(s[q..r.pos]))
  {
  }

  /** Any other character, an unknown one included, consumes exactly one position. */
  lemma SymbolIsOneCharacter(s: string, i: nat)
    requires i <= |s|
    requires var c := Peek(s, RunEnd(s, i, IsSpace));
      c != NUL && !IsDigit(c) && c != '.' && !IsAlpha(c)
    ensures var q := RunEnd(s, i, IsSpace);
      && NextToken(s, i) == Cursor(q + 1, SymbolToken(s[q]))
      && (NextToken(s, i).tok.Error? <==> s[q] !in "+-*/^()")
  {
  }

  /** A number's token carries the scanned value; a lone '.' yields 0 and consumes nothing. */
  lemma NumberToken(s: string, i: nat)
    requires i <= |s|
    requires var c := Peek(s, RunEnd(s, i, IsSpace)); IsDigit(c) || c == '.'
    ensures var q := RunEnd(s, i, IsSpace);
      && NextToken(s, i) == Cursor(q + ScanNumber(s, q).1, Number(ScanNumber(s, q).0))
      && (!IsDigit(Peek(s, q + 1)) && s[q] == '.' ==> NextToken(s, i) == Cursor(q, Number(0.0)))
  {
  }

  /** The words the lexer knows. */
  const KnownWords: set<string> := {"x", "sin", "cos", "tan", "sqrt", "log", "exp", "abs"}

  /**
   * Word classification: exactly "x" is the variable, each function name its function, and
   * every other word, any word longer than MaxWordLength letters included, an error.
   */
  lemma WordClassification(w: string)
    ensures ClassifyWord(Truncate(w)) == Variable <==> w == "x"
    ensures forall f: FuncType :: f != NoFunc ==> (ClassifyWord(Truncate(w)) == Function(f) <==> w == FuncName(f))
    ensures ClassifyWord(Truncate(w)) == Error <==> w !in KnownWords
    ensures |w| > MaxWordLength ==> ClassifyWord(Truncate(w)) == Error
  {
    if |w| > MaxWordLength {
      assert |Truncate(w)| == MaxWordLength;
    }
  }

  /** Truncating to MaxWordLength letters never changes the classification. */
  lemma TruncationUnobservable(w: string)
    ensures ClassifyWord(Truncate(w)) == ClassifyWord(w)
  {
  }

  /** The lexer never produces a function token without a function. */
  lemma NoFunctionWithoutName(s: string, i: nat)
    requires i <= |s|
    ensures NextToken(s, i).tok != Function(NoFunc)
  {
  }

  /** An opening parenthesis token is only ever produced by a '(' character. */
  lemma LParenComesFromParen(s: string, i: nat)
    requires i <= |s| && NextToken(s, i).tok == LParen
    ensures 0 < NextToken(s, i).pos && s[NextToken(s, i).pos - 1] == '('
  {
  }
}
