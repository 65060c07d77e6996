# desmos-calc core in Dafny

This project models the two computational parts of desmos-calc, a small graphing calculator.

- **The formula evaluator (parser.c).** A hand-written lexer moves a cursor over the input
  string and fills in the current token. A recursive-descent parser
  (Expression → Term → Power → Factor) then evaluates the formula for a given `x` while it
  parses.
- **The coordinate mapper and grid planner (graph.c).** These provide:
  - the affine map between world and screen coordinates, with the y-axis flipped;
  - the choice of a 1-2-5 grid step aimed at about 100 pixels;
  - the enumeration of grid lines across the visible range;
  - the three-way classification of tick labels.

Modules, following the program's structure:

| module | file | contents |
|---|---|---|
| `Tokens` | tokens.dfy | the token and function enumerations of parser.h, and the cursor (position, current token) |
| `Powers` | powers.dfy | powers of ten over the reals, used by the number scanner and the grid step |
| `Lexer` | lexer.dfy | `GetNextToken` as the pure function `NextToken`, with its properties |
| `Expressions` | expr.dfy | the expression tree that the C evaluation order implies, and its value over the reals |
| `Grammar` | grammar.dfy | the recursive-descent parser as pure functions from a cursor to (tree, cursor) |
| `GrammarProperties` | grammar_props.dfy | precedence, associativity and the lenient error paths, as statements about tree shape |
| `GrammarExamples` | formulas.dfy | concrete formulas, their token streams, their trees and some of their values |
| `Parsing` | parser.dfy | the `Parser` object: a class with `input`, `pos` and `current`, whose methods mirror the C functions and are proved equal to `Grammar` |
| `Graph` | graph.dfy | `GraphState` as a class, the coordinate maps, the grid step, the grid lines and the labels |

The C parser computes values on the fly. The corresponding method of `Parsing.Parser` instead
builds the tree that this evaluation order implies, combining the accumulator `left` in the
same loops. `Evaluate` then takes that tree's value with `Expressions.Eval`. Each method is
proved to return exactly the tree, and to leave exactly the cursor, that the matching
`Grammar` function gives. Precedence and associativity are proved as shapes of those trees.

### Where the declarations and the code differ

parser.h:67-76 declares more than parser.c implements. It declares an `EvalContext` with
`x`, `y` and `t` ("context includes x, y, t, and other variables"), and the tree interface
`Parser_Parse`, `AST_Evaluate` and `AST_Free`. None of these is implemented. The comment
`// Or NaN` at parser.c:143 hints at another result for division by zero. The model
follows the code that exists:

- The only variable is `x`. Every other word, `y` and `t` included, lexes as an error token, and `Factor` makes it 0 (`GrammarExamples.UnknownWordIsZero`).
- Division by zero gives 0, not NaN (`Expressions.DivisionByZeroIsZero`).
- There is no implicit multiplication. `Term` loops only on `*` and `/` (parser.c:137), so `2x` is the number 2 and `x` is left unread (`GrammarExamples.NoImplicitProduct`).
- A missing `)` is accepted (`GrammarProperties.ClosingParenOptional`).
- Leftover tokens after the top-level expression are ignored (`GrammarExamples.TrailingTokensIgnored`).
- The tree in this model is the one implied by parser.c's evaluation order, not the `ASTNode` of parser.h:37-66.

## Model

| member | source | states |
|---|---|---|
| Parsing.Parser.constructor | parser.c:10-14 | Parser_Init: the parser holds the input and sits at the first token, i.e. the cursor `NextToken(input, 0)` |
| Parsing.Parser.GetNextToken | parser.c:16-85 | the new position and token are exactly `NextToken(input, old pos)`, and the position stays within the input |
| Parsing.Parser.SkipWhiteSpace | parser.c:17-19 | the loop stops at the end of the maximal white-space run from the old position and leaves the token unchanged |
| Parsing.Parser.ReadWord | parser.c:36-72 | the loop consumes the whole maximal run of letters, at least one, and the token is the classification of its first 31 letters |
| Parsing.Parser.Factor | parser.c:89-123 | returns the tree and leaves the cursor given by `Grammar.ParseFactor` on the entry cursor |
| Parsing.Parser.Power | parser.c:125-133 | returns the tree and cursor given by `Grammar.ParsePower`; the loop invariant ties the accumulator to `PowerRest` |
| Parsing.Parser.Term | parser.c:135-146 | returns the tree and cursor given by `Grammar.ParseTerm`; the loop invariant ties the accumulator to `TermRest` |
| Parsing.Parser.Expression | parser.c:148-158 | returns the tree and cursor given by `Grammar.ParseExpression`; the loop invariant ties the accumulator to `ExprRest` |
| Parsing.Parser.Evaluate | parser.c:160-162 | the value is the value at x of the tree one Expression reads from the current cursor; the cursor ends where that Expression stops |
| Parsing.EvaluateAt | parser.c:160-162 | Parser_Init (parser.c:10-14) followed by Parser_Evaluate yields `EvaluateFormula(input, x)` |
| Lexer.RunEnd | parser.c:17-19 | the end of a run satisfies: every character before it is in the class, and the character at it is not (or it is the end of the string) |
| Lexer.RunEndIs | parser.c:38 | any position with that property is the run's end, so the run is unique |
| Lexer.NextToken | parser.c:16-85 | the cursor never moves backwards and stays in the string; a token with width (anything but a number or EOF) advances the position; EOF exactly when only white space remains before the terminator |
| Lexer.SkipsWhiteSpace | parser.c:17-19 | the skipped characters are white space, the next one is not, and lexing from the old position equals lexing from the first non-space |
| Lexer.EndOfInput | parser.c:21-24 | at the end of the string the token is EOF and the position does not move |
| Lexer.EofIsStable | parser.c:21-24 | once EOF is reached, lexing again returns the same cursor |
| Lexer.ScanNumber | parser.c:28-34 | nothing is consumed exactly when the text starts neither with a digit nor with `.` followed by a digit, and then the value is 0; the length consumed stays within the string |
| Lexer.ScanExponent | parser.c:30 | the exponent part ends within the string at or after its start, and when nothing is consumed (no marker, or a marker without digits) the exponent is 0 |
| Lexer.ScanInteger | parser.c:30 | a run of digits not followed by `.`, `e` or another digit scans to its decimal value and its own length |
| Lexer.NumberToken | parser.c:28-34 | at a digit or `.` the token is a number carrying the scanned value, with the position advanced by the scanned length; a lone `.` yields 0 and consumes nothing |
| Lexer.WordIsMaximal | parser.c:36-38 | a word token consumes at least one letter and the whole maximal run of letters, and is the classification of that run truncated |
| Lexer.ClassifyWord | parser.c:45-70 | a word is always the variable, a function or an error token |
| Lexer.Truncate | parser.c:39-43 | the compared prefix has at most 31 letters |
| Lexer.WordClassification | parser.c:39-70 | exactly `x` is the variable; each function token holds exactly for its name; error exactly for words outside the known set; any word longer than 31 letters is an error |
| Lexer.TruncationUnobservable | parser.c:39-43 | truncating to 31 letters never changes the classification |
| Lexer.SymbolToken | parser.c:74-83 | every symbol token, an error included, has width |
| Lexer.SymbolIsOneCharacter | parser.c:74-84 | any other character, an unknown one included, consumes exactly one position; the token is an error exactly when the character is not one of `+-*/^()` |
| Lexer.NoFunctionWithoutName | parser.c:45-70 | the lexer never produces a function token without a function |
| Lexer.LParenComesFromParen | parser.c:80 | an opening-parenthesis token is produced only by a `(` character just before the new position |
| Grammar.Advance | parser.c:16-85 | lexing never moves the cursor back and never increases the termination measure beyond the unread input |
| Grammar.ParseFactor | parser.c:89-123 | Factor stays in the string, never moves back and never increases the termination measure |
| Grammar.ParsePower | parser.c:125-133 | when Power returns, the current token is not `^`, and the cursor has not moved back |
| Grammar.PowerRest | parser.c:127-131 | the `^` loop ends at a token that is not `^` |
| Grammar.ParseTerm | parser.c:135-146 | when Term returns, the current token is neither `*`, `/` nor `^` |
| Grammar.TermRest | parser.c:137-145 | the `*`/`/` loop ends at a token that is neither `*` nor `/` |
| Grammar.ParseExpression | parser.c:148-158 | when Expression returns, the current token is neither `+`, `-`, `*`, `/` nor `^` |
| Grammar.ExprRest | parser.c:150-156 | the `+`/`-` loop ends at a token that is neither `+` nor `-` |
| Grammar.Start | parser.c:10-14 | Parser_Init's first token is the lexing from position 0, and the cursor it gives lies within the input |
| Grammar.ParseFormula | parser.c:160-162 | the tree Parser_Evaluate computes from the cursor Parser_Init gives; an input whose first token is `)`, an unknown word or the end of input is the constant 0 |
| Grammar.EvaluateFormula | parser.c:160-162 | the value Parser_Evaluate returns at x after Parser_Init; a formula that does not mention `x` has the same value as at x = 0 |
| GrammarProperties.PrecedenceShape | parser.c:125-158 | on input without parentheses, `+ -` sit only above `* /`, which sit only above `^`, which sits only above negation and function calls; `+ - * /` lean left and `^` leans right |
| GrammarProperties.ExpressionShape | parser.c:148-158 | on input without parentheses, an Expression is a left-leaning chain of Terms (the induction step for PrecedenceShape) |
| GrammarProperties.PowerIsRightAssociative | parser.c:125-133 | the Power loop runs at most once: a Factor is raised to the whole Power that follows its `^`, or stands alone |
| GrammarProperties.PrefixBindsTighterThanPower | parser.c:104-110 | a Power read at `-` or at a function name is the prefix applied to a Factor, possibly raised to a power, and never the prefix applied to a power |
| GrammarProperties.MissingOperandIsZero | parser.c:122 | at an operator other than `-`, at `)`, at an error or at EOF, Factor yields 0 and consumes nothing, and so does a whole Expression at `)`, an error or EOF |
| GrammarProperties.ClosingParenOptional | parser.c:97-103 | a parenthesised Factor is the inner Expression; a following `)` is consumed when present and not required otherwise |
| Expressions.Fabs | parser.c:118 | the absolute value is non-negative and equals the argument or its negation |
| Expressions.ConstantWithoutVar | parser.c:94-96 | a formula without `x` has the same value for every x |
| Expressions.DivisionByZeroIsZero | parser.c:142-143 | a quotient whose divisor evaluates to exactly 0 is 0 |
| Expressions.Apply | parser.c:111-120 | the function switch: abs is non-negative and equals the argument or its negation (fabs); a token with no function gives 0; sin, cos, tan, sqrt, log and exp come from the math-library parameter |
| Expressions.Eval | parser.c:125-158 | the value Factor, Power, Term and Expression compute: the variable is x; a call to abs is non-negative; a quotient with a zero divisor is 0 and pow comes from the math-library parameter |
| GrammarExamples.LexSum | parser.c:16-85 | `2+3*4` lexes to 2, `+`, 3, `*`, 4, EOF |
| GrammarExamples.ProductBindsTighterThanSum | parser.c:135-158 | `2+3*4` parses as 2 + (3 * 4) |
| GrammarExamples.SumValue | parser.c:135-158 | `2+3*4` evaluates to 14 for every x |
| GrammarExamples.LexTower | parser.c:16-85 | `2^3^2` lexes to 2, `^`, 3, `^`, 2, EOF |
| GrammarExamples.PowerGroupsToTheRight | parser.c:125-133 | `2^3^2` parses as 2^(3^2) |
| GrammarExamples.LexQuotient | parser.c:16-85 | `8/2/2` lexes to 8, `/`, 2, `/`, 2, EOF |
| GrammarExamples.DivisionGroupsToTheLeft | parser.c:135-146 | `8/2/2` parses as (8 / 2) / 2 |
| GrammarExamples.QuotientValue | parser.c:135-146 | `8/2/2` evaluates to 2 |
| GrammarExamples.LexDifference | parser.c:16-85 | `5-2-1` lexes to 5, `-`, 2, `-`, 1, EOF |
| GrammarExamples.SubtractionGroupsToTheLeft | parser.c:148-158 | `5-2-1` parses as (5 - 2) - 1 |
| GrammarExamples.LexNegatedSquare | parser.c:16-85 | `-x^2` lexes to `-`, x, `^`, 2, EOF |
| GrammarExamples.NegationBeforePower | parser.c:104-106 | `-x^2` parses as (-x)^2 |
| GrammarExamples.LexSineSquare | parser.c:36-72 | `sin x^2` lexes to sin, x, `^`, 2, EOF |
| GrammarExamples.FunctionBeforePower | parser.c:107-120 | `sin x^2` parses as (sin x)^2 |
| GrammarExamples.LexAbsolute | parser.c:36-84 | `abs -3` lexes to abs, `-`, 3, EOF |
| GrammarExamples.AbsoluteOfNegation | parser.c:104-120 | `abs -3` parses as abs(-(3)) |
| GrammarExamples.AbsoluteValue | parser.c:118 | `abs -3` evaluates to 3 |
| GrammarExamples.LexReciprocal | parser.c:16-85 | `1/x` lexes to 1, `/`, x, EOF |
| GrammarExamples.ReciprocalTree | parser.c:135-146 | `1/x` parses as 1 / x |
| GrammarExamples.ReciprocalAtZero | parser.c:142-143 | `1/x` evaluates to 0 at x = 0 |
| GrammarExamples.LexOpenSum | parser.c:16-85 | `(1+2` lexes to `(`, 1, `+`, 2, EOF |
| GrammarExamples.UnclosedParenthesis | parser.c:97-103 | `(1+2` without its `)` parses as 1 + 2 |
| GrammarExamples.LexStrayParenthesis | parser.c:74-84 | `2)+5` lexes to 2, `)`, `+`, 5, EOF |
| GrammarExamples.TrailingTokensIgnored | parser.c:160-162 | `2)+5` parses as 2, and the parse ends at the stray `)` with `+5` unread |
| GrammarExamples.LexJuxtaposition | parser.c:28-72 | `2x` lexes to 2, x, EOF |
| GrammarExamples.NoImplicitProduct | parser.c:137 | `2x` parses as 2: juxtaposition is not a product, and the parse ends at the unread `x` |
| GrammarExamples.LexUnknownWord | parser.c:68-70 | `y+1` lexes to an error token, `+`, 1, EOF |
| GrammarExamples.UnknownWordIsZero | parser.c:122 | `y+1` parses as 0, and the parse ends at the error token itself, leaving the whole formula unread |
| Powers.Pow10 | graph.c:37 | every power of ten is positive |
| Powers.ScaleIsProduct | parser.c:30 | scaling by ten k times is multiplication by 10^k |
| Powers.Pow10Monotone | graph.c:37 | powers of ten grow with the exponent |
| Powers.BracketUnique | graph.c:37 | at most one exponent k has 10^k <= t < 10^(k+1), so k is floor(log10 t) |
| Powers.BracketMonotone | graph.c:37 | a larger value never has a smaller bracketing exponent |
| Graph.GraphState.constructor | graph.c:5-9 | Graph_Init: center (0, 0), scale 40 pixels per unit |
| Graph.GraphState.ToScreen | graph.c:11-15 | the world-to-pixel map (exact, without the float rounding): the view center lands on the middle of the screen, width/2 by height/2 |
| Graph.GraphState.ToCartesian | graph.c:17-21 | the pixel-to-world map for a non-zero scale: the middle of the screen lands on the view center |
| Graph.GraphState.CartesianOfScreen | graph.c:11-21 | for a non-zero scale, mapping a world point to the screen and back returns it |
| Graph.GraphState.ScreenOfCartesian | graph.c:11-21 | for a non-zero scale, mapping a pixel to the world and back returns it |
| Graph.GraphState.CenterMapsToMiddle | graph.c:12-13 | the view's center is drawn at (width/2, height/2) |
| Graph.GraphState.ScreenOrientation | graph.c:12-13 | for a positive scale, screen x grows exactly when world x grows, and screen y shrinks exactly when world y grows |
| Graph.GraphState.VisibleBounds | graph.c:25-31 | the visible range: its top-left corner (minX, maxY) maps to pixel (0, 0) and its bottom-right corner (maxX, minY) to pixel (width, height) |
| Graph.GraphState.VisibleBoundsOrdered | graph.c:25-31 | for a positive scale and a screen of non-negative size, minX <= maxX and minY <= maxY; the range spans width/scale by height/scale units and is centered on the view's center |
| Graph.GraphState.DrawGrid | graph.c:23-82 | the step is the 1-2-5 step for 100/scale; on each axis the lines are the progression from floor(min/step)*step up to the visible maximum, each with its label class |
| Graph.NiceStep | graph.c:36-41 | the refined grid step is positive and is 1, 2 or 5 times the power of ten 10^k |
| Graph.StepBracket | graph.c:36-41 | the step is 1, 2 or 5 times 10^k, chosen by the ratio thresholds 5 and 2, and step <= target <= 2.5 * step |
| Graph.PixelSpacing | graph.c:34-41 | neighbouring grid lines are between 40 and 100 pixels apart on screen |
| Graph.StepMonotone | graph.c:36-41 | a larger target step never yields a smaller grid step |
| Graph.StepMonotoneInScale | graph.c:36-41 | zooming in (a larger scale) never makes the grid step larger |
| Graph.StepDeterminedByTarget | graph.c:37 | the step depends only on the target, because its exponent is unique |
| Graph.FirstLine | graph.c:49 | the first grid line, startX here and startY at line 67, lies at or below lo and less than one step below it |
| Graph.FirstLineBounds | graph.c:49 | the first line floor(lo/step)*step (startX here, startY at line 67) is at most lo and less than one step below it |
| Graph.GridLines | graph.c:50-64 | the loop (the x loop here, the y loop at lines 68-82) visits exactly start, start + step, ... up to hi, stops at the first value above hi, and labels each line by its class |
| Graph.CountBound | graph.c:50 | a line within range leaves fewer than floor((hi - start)/step) + 1 lines before it, so the loop ends |
| Graph.EnumerationUnique | graph.c:50 | the enumeration of a range is unique |
| Graph.EnumerationCovers | graph.c:49-50 | every multiple of the step within [lo, hi] is one of the grid lines |
| Graph.EnumerationSpacing | graph.c:50 | consecutive lines differ by exactly the step, and every line is at most hi |
| Graph.LabelFormat | graph.c:55-61 | the label choice, for x here and for y at lines 73-79: no label exactly when abs(v) <= 1e-10, and a general-format label only for 0.001 <= abs(v) < 1e6 |
| Graph.LabelClasses | graph.c:55-61 | for the x labels here and the y labels at lines 73-79: no label exactly when abs(v) <= 1e-10; general format exactly when 0.001 <= abs(v) < 1e6; scientific exactly for the other magnitudes; the class ignores the sign |

## Left out

- IEEE arithmetic: the model uses unbounded reals. NaN, infinities, rounding, the accumulation error of `x += step`, and the `(float)` casts in graph.c are not modelled.
- `strtod`: only its decimal form is modelled (digits, an optional fraction, an optional exponent). The hexadecimal, `inf` and `nan` forms, overflow and locale are not.
- The C math library: `pow`, `sin`, `cos`, `tan`, `sqrt`, `log` and `exp` are uninterpreted functions passed in as a `MathLib` value. `fabs` is modelled exactly.
- Parsing.Parser.Factor, Power, Term and Expression: each returns the tree of its value rather than the value computed on the fly. `Evaluate` takes the tree's value, which is the same number over the reals.
- Parsing.Parser.constructor: C leaves `current` uninitialised before the first `GetNextToken`. The model gives it a placeholder value that is overwritten at once.
- Graph.GraphState.ToCartesian: it requires a non-zero scale. The C code divides by the scale without a check; the result for a zero scale is not modelled.
- Graph.GraphState.DrawGrid: it requires a positive scale, and takes the exponent k = floor(log10(100/scale)) as a parameter bracketed by powers of ten, because `log10` and `floor` of a real are not modelled. That parameter is unique (`Graph.StepDeterminedByTarget`).
- Graph.GraphState.DrawGrid: the axis lines at the screen origin and every `DrawLine`, `DrawText` and `Fade` call are left out, because they only draw. The model returns the grid lines and their label classes.
- The `%.2e` and `%.6g` label strings are not produced. Only the three-way choice of format is modelled.
- ui.c and main.c are not part of this model: they are the window, input and widget code of the raylib front end. This includes main.c's pan and zoom through `offset` and `zoom`, fields that `GraphState` does not have.
- The AST declarations of parser.h (`ASTNode`, `EvalContext`, `Parser_Parse`, `AST_Evaluate`, `AST_Free`) have no implementation, so they are not modelled.
