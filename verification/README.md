# Symbolic math pipeline: lexer, parser and evaluator in Dafny

This project models the core of a small TypeScript library that reads arithmetic
expressions with variables and function names, like `2x + sin(x)`, and evaluates them. The
result is a symbolic string when the expression has a variable. Without a variable it is a
number, with one exception: `log`, `ln` or `sqrt` of a value that is not `>= 0` gives a mathjs
`Complex`, which is returned as is at the root and written out as text inside a bigger
expression.
The pipeline has three stages, and each is modelled as pure functions over immutable
datatypes:

- **Lexer** (`lexer.dfy`, module `Lexer`). It models `getNextToken` as a step function
  `Next(text, State(pos, buffer))`.
  - The buffer holds tokens that are already built but not yet delivered.
  - Numbers and `)` buffer a synthetic MUL token for implicit multiplication.
  - A maximal letter run is split left to right. At each position the *first* name of the
    `Func` declaration order that matches becomes a FUNC piece; otherwise one letter becomes
    a VARIABLE piece. MUL tokens go between the pieces, so `cosec` lexes as `cos`·`e`·`c`.
    A longest-prefix reading of the segmentation would keep `cosec` whole; the model
    follows the code.
  - `Drain` pulls until EOF or a lexer error and gives a `Stream(toks, fault)`.
- **Parser** (`parser.dfy`, module `Parser`). A recursive-descent parser over a drained
  stream and an index.
  - Being at index `i` means the source parser has pulled exactly `toks[..i + 1]`.
  - A lexer error therefore surfaces only where the pulling parser would meet it.
  - The `+ -` and `* /` loops fold to the left. Leading signs stack with the leftmost sign
    outermost. `^` is right-associative. Adjacent atoms fold into `*` nodes.
- **Evaluator** (`interpreter.dfy`, module `Interpreter`). The tree walk returns
  `Numeric(n)`, `Symbolic(s)` or `Complex(z)`.
  - JavaScript numbers, their arithmetic, the mathjs functions and `toString` are floating
    point or foreign code. They are a parameter `Kernel<N, C>` over an abstract number type
    `N` and an abstract type `C` of mathjs `Complex` objects.
  - mathjs is set up with `create(all)`, which leaves `predictable` off. So `log` and `ln`
    of a number that is not `>= 0` (a negative number or NaN) return a `Complex` object.
    `sqrt` does so for a negative number only; for NaN it returns NaN. Such an object is
    neither a `'number'` nor a `'string'` to `typeof`. The kernel's `branch` field returns
    either kind of value, and the predicate `Unpredictable` states the default rule.
  - Everything else is fixed by the model: which results are numbers, which are `Complex`
    objects, which are symbolic strings, and exactly how the strings are spelled.

Errors that the source throws become `Result` values:

- `LexError.MultipleDots(pos)`: a second dot in a number;
- `LexError.UnknownCharacter(c, pos)`: a character that starts no token;
- `ParseError.Expected(want, got)`: `eat` saw the wrong kind;
- `ParseError.UnexpectedToken(got)`: `SingleAtom` cannot start with this kind;
- `ParseError.TrailingInput(got)`: tokens are left after the expression;
- `ParseError.Lex(e)`: a lexer error met while pulling;
- `EvalError`: the evaluator's two defensive faults.

The fact files are `lexer_facts.dfy`, `lexer_words.dfy`, `parser_facts.dfy` and
`interpreter_facts.dfy`. They state what the stages promise. `lexer_words.dfy` proves that
the lexer's tokens depend only on the whitespace-separated words of the text. So widening
or narrowing a run of whitespace changes no token. The example files check the repository's tests and the
documented corner cases:

- `lexer_examples.dfy`:
  - `2 + 3` and `2x` as whole streams;
  - `3.12.1` fails at offset 4;
  - a leading `.` fails;
  - `cosec` is segmented as `cos`·`e`·`c`.
- `lexer_streams.dfy`:
  - `2xsin(x)`, `sin(x)log(x)`, `sin(x)`, `2^3^4`, `(2 + x) * 5` and `3 + x` as whole
    streams. Each call of `Next` is proved over any text with the right characters, and
    `DrainSteps` chains the calls;
  - `3   + x` gives the same stream as `3 + x`, by the whitespace lemma.
- `parser_examples.dfy`:
  - `a-b-c`, `2^3^4`, `- - 3`, `-2^2`, `2 x^2` against `2x^2`, `2 + 3 4`, `(2 + x) * 5`,
    `sin(x)` and `sin(x)log(x)` parse to the trees the code builds;
  - `sinx`, `cosec(x)`, `2^-3` and `2)` are rejected with the errors the code raises;
  - the texts of the parser tests (`2 + 3`, `2x`, `sin(x)`, `sin(x)log(x)`, `(2 + x) * 5`,
    `2^3^4`) parse from text, through the lexer streams above.
- `interpreter_examples.dfy`: the texts `2x` and `2 + 3` interpreted end to end.

Two behaviours worth knowing are proved as written:

- `(x + 1) * 2` evaluates to the text `x + 12`. Symbolic strings carry no brackets, and
  `*` with one numeric side juxtaposes the two sides (`InterpreterFacts.SumTimesNumber`).
- `sqrt(-4) * x` evaluates to the text of the `Complex` followed by ` * x`, for example
  `2i * x`. `sqrt(-4) * 2` is a string too. A `Complex` operand is neither a number nor a
  string, so neither juxtaposition rule applies (`InterpreterFacts.ComplexWrittenOut`).
  `sqrt(0/0)`, on the other hand, is the number NaN (`InterpreterFacts.DefaultSqrt`).
- The comment above `number` gives position 5 for `3.12.1`. The code reports the 0-based
  offset of the second dot, which is 4 (`LexerExamples.SecondDot`).

## Model

| member | source | states |
|---|---|---|
| `LexerFacts.FuncNamesShape` | src/lib/token.ts:16-27 | There are ten non-empty lower-case names. The only name that begins another is `cos`, which begins `cosec` and is listed before it. |
| `LexerFacts.TokenizeNoConstant` | src/lib/token.ts:1-14 | No token the lexer delivers has kind CONSTANT. |
| `Lexer.SkipWhiteSpace` | src/Lexer/index.ts:34-38 | Returns the first position at or after `pos` that is not whitespace, or the end of the text. Every character passed over is whitespace. |
| `LexerFacts.WhiteSpaceSkipped` | src/Lexer/index.ts:24-38 | Whitespace before a token is invisible: a call at the whitespace returns what a call at the token's first character returns. |
| `Lexer.ScanNumber` | src/Lexer/index.ts:48-61 | On success, returns the end of the maximal run of digits and dots, and the run holds at most one dot. On failure, the error is at a dot and the run before it already holds exactly one dot. |
| `Lexer.NumberStep` | src/Lexer/index.ts:123-131 | The NUMBER token carries exactly the scanned numeral. A MUL is buffered exactly when a letter or `(` follows the numeral directly. A second dot fails at its offset. |
| `Lexer.LetterRunEnd` | src/Lexer/index.ts:70-73 | Returns the end of the maximal run of ASCII letters at `pos`. |
| `Lexer.FirstMatch` | src/Lexer/index.ts:82-92 | Finds the first function name, in declaration order, that the run has at `i`; no earlier name matches there. `None` means no name matches. |
| `Lexer.MatchAt` | src/Lexer/index.ts:82-92 | A name chosen at position `i` is a non-empty function name that the run has at `i`. |
| `Lexer.CosecNeverMatched` | src/Lexer/index.ts:82-92 | The segmentation never picks `cosec`, at any position of any run. |
| `Lexer.FirstPiece` | src/Lexer/index.ts:79-105 | One step of the segmentation is a FUNC or single-letter VARIABLE piece spelled by the run at `i`. It is a VARIABLE exactly when no name matches there. |
| `Lexer.Pieces` | src/Lexer/index.ts:79-106 | The pieces spell the run exactly and are all FUNC or VARIABLE pieces, never `cosec`. There are no pieces exactly when nothing is left. |
| `Lexer.JoinWithMul` | src/Lexer/index.ts:84-99 | For n pieces, the result has length 2n-1 and starts with the first piece. Every token is a piece or MUL. |
| `Lexer.JoinWithMulAt` | src/Lexer/index.ts:84-99 | The pieces sit at the even positions in order, and MUL sits at every odd position. So MUL is never first, and there is one between each two pieces. |
| `Lexer.SymbolStep` | src/Lexer/index.ts:67-110 | The letter branch consumes the maximal letter run. It returns the first joined token and buffers the rest, in order. |
| `Lexer.CloseStep` | src/Lexer/index.ts:157-163 | `)` buffers a MUL exactly when a letter, digit or `(` follows directly. |
| `Lexer.Next` | src/Lexer/index.ts:112-169 | A call returns a well-formed token and a valid state. A non-EOF token strictly decreases the work left. EOF comes only with an empty buffer once only whitespace remains. Failures happen only with an empty buffer, at or after the skipped whitespace, at an unknown character or a second dot. |
| `Lexer.Drain` | src/Lexer/index.ts:112-169 | The drained stream holds only well-formed tokens. EOF can only be last, and it is last exactly when no call failed. |
| `Lexer.Tokenize` | tests/lexer.test.ts:6-15 | A fresh lexer's stream has the same two properties. |
| `Lexer.Pull` | src/Lexer/index.ts:112-169 | The `n`-th successive call leaves the lexer in a valid state. |
| `LexerFacts.DrainDelivers` | src/Lexer/index.ts:112-169 | The `n`-th token of the stream is exactly what the `n`-th call returns. |
| `LexerFacts.DrainFails` | src/Lexer/index.ts:164-166 | A stream that ends in an error ends there because the next call throws that error. |
| `LexerFacts.BufferFirst` | src/Lexer/index.ts:113-115 | Buffered tokens come out first, in order, and the position does not move. |
| `LexerFacts.EofForever` | src/Lexer/index.ts:117-121 | With the input used up and nothing buffered, every further call returns EOF. |
| `LexerFacts.UnknownCharacterFails` | src/Lexer/index.ts:164-166 | A character that starts no token fails the call, naming that character and its offset. |
| `LexerFacts.TokenizeNoCosec` | src/Lexer/index.ts:82-92 | No stream contains a FUNC `cosec` token. |
| `LexerExamples.TwoPlusThree` | tests/lexer.test.ts:18-27 | `2 + 3` lexes as NUMBER 2, PLUS, NUMBER 3, EOF. |
| `LexerExamples.TwoX` | tests/lexer.test.ts:29-38 | `2x` lexes as NUMBER 2, MUL, VARIABLE x, EOF. |
| `LexerExamples.SecondDot` | src/Lexer/index.ts:45-56 | `3.12.1` fails with a multiple-dots error at offset 4. |
| `LexerExamples.LeadingDot` | src/Lexer/index.ts:138-166 | `.5` fails with an unknown-character error for `.` at offset 0. |
| `LexerExamples.CosecCall` | src/Lexer/index.ts:67-110 | The first call on `cosec` returns FUNC `cos` and buffers MUL, `e`, MUL, `c`. |
| `LexerStreams.XSinCall` | src/Lexer/index.ts:67-110 | In any text, the first call on a run `xsin` returns VARIABLE x and buffers MUL, FUNC `sin`. |
| `LexerStreams.NameCall` | src/Lexer/index.ts:67-110 | In any text, the first call on a run that is exactly `sin` or `log` returns that FUNC token and buffers nothing. |
| `LexerStreams.TwoXSin` | tests/lexer.test.ts:40-54 | `2xsin(x)` lexes as NUMBER 2, MUL, VARIABLE x, MUL, FUNC sin, OPERBRACKET, VARIABLE x, CLOSEBRACKET, EOF. |
| `LexerStreams.SinLog` | tests/lexer.test.ts:56-71 | `sin(x)log(x)` lexes as FUNC sin, OPERBRACKET, VARIABLE x, CLOSEBRACKET, MUL, FUNC log, OPERBRACKET, VARIABLE x, CLOSEBRACKET, EOF. |
| `LexerStreams.DigitCall` | src/Lexer/index.ts:123-131 | In any text, a single digit followed by a character that neither continues a numeral nor calls for a MUL is one NUMBER token, with nothing buffered. |
| `LexerStreams.SinX` | tests/parser.test.ts:35-42 | `sin(x)` lexes as FUNC sin, OPERBRACKET, VARIABLE x, CLOSEBRACKET, EOF. |
| `LexerStreams.PowPow` | tests/parser.test.ts:79-94 | `2^3^4` lexes as NUMBER 2, POW, NUMBER 3, POW, NUMBER 4, EOF. |
| `LexerStreams.Bracket` | tests/parser.test.ts:63-77 | `(2 + x) * 5` lexes as OPERBRACKET, NUMBER 2, PLUS, VARIABLE x, CLOSEBRACKET, MUL, NUMBER 5, EOF. |
| `LexerStreams.Sum` | src/Lexer/index.ts:29-33 | `3 + x` lexes as NUMBER 3, PLUS, VARIABLE x, EOF. |
| `LexerStreams.WideSum` | src/Lexer/index.ts:29-33 | `3   + x` gives exactly the stream of `3 + x`. |
| `LexerWords.WordEnd` | src/Lexer/index.ts:34-38 | The end of a word is the first whitespace or the end of the text, and no character before it is whitespace. |
| `LexerWords.AgreeAt` | src/Lexer/index.ts:45-110 | Inside two agreeing words, equal-length runs spell the same characters, and the words still agree after them. |
| `LexerWords.ScanNumberAgree` | src/Lexer/index.ts:48-61 | Scanning a number in two agreeing words ends, or fails, at the same distance from where it started. |
| `LexerWords.LetterRunAgree` | src/Lexer/index.ts:70-73 | The letter runs of two agreeing words have the same length. |
| `LexerWords.NextAgree` | src/Lexer/index.ts:112-169 | One call on two texts whose remaining words are the same gives the same token and buffer, with the remaining words still the same. Otherwise both calls fail with the same kind of error at the same character. |
| `LexerWords.DrainAgree` | src/Lexer/index.ts:112-169 | From positions followed by the same words, the two streams have the same tokens. Either both end in EOF or both fail with the same kind of error. |
| `LexerWords.SamePrefix` | src/Lexer/index.ts:29-38 | Texts that differ only in the width of one non-empty whitespace run have the same words from every position of the common prefix. |
| `LexerWords.WhiteSpaceWidth` | src/Lexer/index.ts:29-38 | Widening or narrowing a non-empty whitespace run leaves the token stream unchanged. It also leaves unchanged whether lexing fails, and the kind and character of the failure. |
| `Parser.OperatorGlyph` | src/Parser/ast.ts:38-48 | An operator token from the lexer carries one of `+ - * / ^`, so every BinOpr operator is one of the five. |
| `Parser.Eat` | src/Parser/index.ts:30-36 | Succeeds exactly when the current token has the wanted kind and a next token can be pulled. Otherwise it reports the kind wanted and the kind seen, or the lexer error met while pulling. |
| `Parser.Expr` | src/Parser/index.ts:46-57 | A successful Expr consumes at least one token and stops at `)`, EOF or CONSTANT. Its tree is well formed when the tokens are. |
| `Parser.ExprTail` | src/Parser/index.ts:49-54 | The `+ -` loop stops only at a token that ends an Expr, and it keeps the tree well formed. |
| `Parser.Term` | src/Parser/index.ts:59-70 | A successful Term stops only at a token that ends a Term. |
| `Parser.TermTail` | src/Parser/index.ts:62-67 | The `* /` loop stops only at a token that ends a Term, and it keeps the tree well formed. |
| `Parser.Signs` | src/Parser/index.ts:73-78 | Collects exactly the run of sign tokens at `i`, in order, and stops at the first other token. |
| `Parser.Factor` | src/Parser/index.ts:72-88 | A successful Factor stops only at a token that ends a Power. |
| `Parser.Power` | src/Parser/index.ts:90-101 | A successful Power stops only at a token that is neither `^` nor the start of an atom. |
| `Parser.Atom` | src/Parser/index.ts:103-117 | A successful Atom stops only at a token that cannot start an atom. |
| `Parser.AtomTail` | src/Parser/index.ts:106-114 | The implicit-multiplication loop stops only where no atom starts, and it keeps the tree well formed. |
| `Parser.SingleAtom` | src/Parser/index.ts:119-150 | A successful atom consumes at least one token and leaves the parser at a token. A failure is never the trailing-input error. |
| `Parser.Parse` | src/Parser/index.ts:38-44 | Success implies the stream has no lexer error and, for lexer tokens, a well-formed tree. A trailing-input error names `)` or CONSTANT. |
| `ParserFacts.WrapOutermost` | src/Parser/index.ts:82-85 | The collected signs wrap the operand with the leftmost sign outermost. |
| `ParserFacts.FactorSigned` | src/Parser/index.ts:72-88 | A sign before a Factor wraps the whole of that Factor. |
| `ParserFacts.ThroughLevels` | src/Parser/index.ts:46-117 | A single atom passes unchanged through every level whose loop its follower does not continue. |
| `ParserFacts.LeafAtom` | src/Parser/index.ts:119-130 | NUMBER and CONSTANT tokens become a Num of their text, and a VARIABLE token becomes a Symbol of its letter. |
| `ParserFacts.AtomTailStep` | src/Parser/index.ts:106-114 | One turn of the Atom loop multiplies the tree so far by the next single atom, on the right. |
| `ParserFacts.PowerStep` | src/Parser/index.ts:90-101 | An atom, `^` and a Power form one `^` node, with the atom on the left. |
| `ParserFacts.TermTailStep` | src/Parser/index.ts:62-67 | One turn of the `* /` loop makes the tree so far the left operand. |
| `ParserFacts.ExprTailStep` | src/Parser/index.ts:49-54 | One turn of the `+ -` loop makes the tree so far the left operand. |
| `ParserFacts.Bracketed` | src/Parser/index.ts:142-147 | `(` Expr `)` yields the tree of the Expr; brackets make no node. |
| `ParserFacts.FuncCallGlue` | src/Parser/index.ts:132-139 | FUNC `(` Expr `)` yields a call node with that name and argument. |
| `ParserFacts.FuncNeedsBracket` | src/Parser/index.ts:132-137 | A FUNC not followed by `(` fails with an Expected-`(` error that names the kind that follows. |
| `ParserFacts.NoSignAfterPow` | src/Parser/index.ts:90-101 | A sign right after `^` is rejected as an unexpected token. |
| `ParserFacts.ParseOfExpr` | src/Parser/index.ts:38-44 | The parse is the first Expr when that Expr stops at EOF; any other token it stops at is a trailing-input error. |
| `ParserFacts.ParseConsumesAll` | src/Parser/index.ts:38-44 | A successful parse has consumed every token up to the final EOF. |
| `ParserFacts.TrailingOnlyClose` | src/Parser/index.ts:38-44 | On text, left-over input after a complete expression is always an unmatched `)`. |
| `ParserFacts.ParseUnparse` | src/Parser/index.ts:46-150 | Every well-formed tree is parsed back from its fully bracketed printing. |
| `ParserExamples.Abc` | src/Parser/index.ts:46-57 | `a-b-c` parses as `(a-b)-c`. |
| `ParserExamples.PowPow` | src/Parser/index.ts:90-101 | The token stream of `2^3^4` parses as `2^(3^4)`. |
| `ParserExamples.MinusMinus` | src/Parser/index.ts:72-88 | `- - 3` parses as `-(-(3))`. |
| `ParserExamples.NegPow` | src/Parser/index.ts:72-101 | `-2^2` parses as `-(2^2)`. |
| `ParserExamples.Spaced` | src/Parser/index.ts:103-117 | `2 x^2` parses as `(2*x)^2`. |
| `ParserExamples.Joined` | src/Parser/index.ts:59-101 | `2x^2`, with the lexer's MUL, parses as `2*(x^2)`. |
| `ParserExamples.Adjacent` | src/Parser/index.ts:103-117 | `2 + 3 4` is accepted as `2 + (3*4)`. |
| `ParserExamples.Bracket` | src/Parser/index.ts:142-147 | The token stream of `(2 + x) * 5` parses as `*(+(2,x),5)`. |
| `ParserExamples.Sin` | src/Parser/index.ts:132-139 | The token stream of `sin(x)` parses as a call of `sin` on `x`. |
| `ParserExamples.SinLog` | src/Parser/index.ts:103-139 | The token stream of `sin(x)log(x)` parses as the product of the two calls. |
| `ParserExamples.Sinx` | src/Parser/index.ts:132-137 | `sinx` is rejected: `(` was expected and MUL was seen. |
| `ParserExamples.Cosec` | src/Parser/index.ts:132-137 | `cosec(x)` is rejected the same way. |
| `ParserExamples.PowSign` | src/Parser/index.ts:90-101 | `2^-3` is rejected at the MINUS. |
| `ParserExamples.Trailing` | src/Parser/index.ts:38-44 | `2)` is rejected with trailing input `)`. |
| `ParserExamples.TwoPlusThreeText` | tests/parser.test.ts:13-22 | The text `2 + 3` parses as `+(2,3)`. |
| `ParserExamples.TwoXText` | tests/parser.test.ts:24-33 | The text `2x` parses as `*(2,x)`. |
| `ParserExamples.SinText` | tests/parser.test.ts:35-42 | The text `sin(x)` parses as a call of `sin` on `x`. |
| `ParserExamples.SinLogText` | tests/parser.test.ts:44-61 | The text `sin(x)log(x)` parses as the product of the two calls. |
| `ParserExamples.BracketText` | tests/parser.test.ts:63-77 | The text `(2 + x) * 5` parses as `*(+(2,x),5)`. |
| `ParserExamples.PowPowText` | tests/parser.test.ts:79-94 | The text `2^3^4` parses as `2^(3^4)`. |
| `Interpreter.Arith` | src/Interpreter/index.ts:31-39 | Two numbers combine exactly when the operator is one of the five. |
| `Interpreter.EvalBinOp` | src/Interpreter/index.ts:27-53 | The result is a number exactly when both operands are numbers, and it is never a `Complex`. Any other mix, a `Complex` operand included, gives a string. The only failure is an unknown operator between two numbers. |
| `Interpreter.EvalUnary` | src/Interpreter/index.ts:55-62 | A sign keeps a number a number. Any other operand, a `Complex` included, becomes a string. |
| `Interpreter.Apply` | src/Interpreter/index.ts:74-87 | A function application to a number succeeds exactly for the ten function names. It gives a number or a `Complex`, never a string, and only `log`, `ln` and `sqrt` can give a `Complex`. |
| `Interpreter.EvalFunc` | src/Interpreter/index.ts:72-91 | A call gives a string exactly when its argument is not a number, that is, a string or a `Complex`. A `Complex` comes only from `log`, `ln` or `sqrt` of a number. The only failure is an unknown name applied to a number. |
| `Interpreter.Eval` | src/Interpreter/index.ts:27-91 | A tree with a variable evaluates to a string. A `Complex` result comes only from a `log`, `ln` or `sqrt` call at the root. Evaluation never fails on a well-formed tree. |
| `Interpreter.Interpret` | src/Interpreter/index.ts:93-96 | On text, the only errors are syntax (or lexer) errors. |
| `InterpreterFacts.EvalMeaning` | src/Interpreter/index.ts:27-91 | On every well-formed tree, evaluation gives the reference reading. A tree whose operands all evaluate to numbers is computed: to a number, or to the `Complex` of a `log`, `ln` or `sqrt` at its root. Every other tree is its text. In that text, operands keep their order, brackets are dropped, signs are `-`/`+` prefixes, calls are `name(arg)`, and a `Complex` operand is written out. `*` juxtaposes exactly when one side is a number and the other side is written out. |
| `InterpreterFacts.SymbolWrittenOut` | src/Interpreter/index.ts:27-91 | A tree with a variable is never computed. |
| `InterpreterFacts.ComputedWithoutComplex` | src/Interpreter/index.ts:72-91 | When `log`, `ln` and `sqrt` never return a `Complex`, a tree is computed exactly when it has no variable, and then it is a number. |
| `InterpreterFacts.NumberExactlyWithoutVariable` | src/Interpreter/index.ts:27-91 | Under the same condition, evaluation succeeds and gives a number exactly when the tree has no variable. |
| `InterpreterFacts.ComplexWrittenOut` | src/Interpreter/index.ts:27-91 | When mathjs's `sqrt` of `-4` is a `Complex`, `sqrt(-4)` is that `Complex` at the root. `sqrt(-4)*x` and `sqrt(-4)*2` give the `Complex`'s text, a spaced ` * `, and the other side. `-sqrt(-4)` and `sin(sqrt(-4))` are strings. |
| `InterpreterFacts.DefaultSqrt` | src/Interpreter/index.ts:5 | With mathjs as `create(all)` sets it up, `sqrt(-4)` evaluates to a `Complex`, and `sqrt(0/0)` to a number, because `sqrt` of NaN is NaN. |
| `InterpreterFacts.PlainArithmetic` | src/Interpreter/index.ts:27-91 | Under any mathjs configuration, a tree with no variable and no `log`, `ln` or `sqrt` call is computed, and evaluates to a number. |
| `InterpreterFacts.RenderKeepsVariables` | src/Interpreter/index.ts:40-90 | A tree with a variable is written out, and every variable of the tree appears as a contiguous piece of its text. |
| `InterpreterFacts.VariablesSurvive` | src/Interpreter/index.ts:27-91 | Evaluating a tree with variable `v` yields a string that contains `v`. |
| `InterpreterFacts.NumberTimesVariable` | src/Interpreter/index.ts:43-50 | `2*x` gives the number's text followed by `x`, and `x*2` gives `x` followed by it. |
| `InterpreterFacts.VariableTimesVariable` | src/Interpreter/index.ts:43-51 | `x*y` keeps the spaced operator: `x * y`. |
| `InterpreterFacts.GroupingNotWritten` | src/Interpreter/index.ts:51 | `x-(y-z)` and `(x-y)-z` both give `x - y - z`. |
| `InterpreterFacts.SumTimesNumber` | src/Interpreter/index.ts:40-51 | `(x+1)*2` gives `x + 12` when the numbers print as `1` and `2`. |
| `InterpreterFacts.FunctionResults` | src/Interpreter/index.ts:72-91 | `sin(x)` gives `sin(x)`. `sin(2+3)` stays numeric. `cosec` is `1 / sin`. |
| `InterpreterFacts.SignedVariable` | src/Interpreter/index.ts:55-62 | `-x` gives `-x`, and `+(-x)` gives `+-x`. |
| `InterpreterFacts.UnknownOperator` | src/Interpreter/index.ts:31-52 | An unknown operator fails between two numbers but is written out when a variable is involved. |
| `InterpreterFacts.InterpretMeaning` | src/Interpreter/index.ts:93-96 | Interpreting text fails exactly when parsing fails, with that syntax error. Otherwise it is the reference reading of the parsed tree. |
| `InterpreterExamples.InterpretTwoX` | src/Interpreter/index.ts:93-96 | The text `2x` evaluates to the text of 2 followed by `x`. |
| `InterpreterExamples.InterpretTwoPlusThree` | src/Interpreter/index.ts:93-96 | The text `2 + 3` evaluates to the number 2 + 3. |

## Left out

- Floating-point numbers are not modelled. This covers JavaScript arithmetic, `Math.pow`, the mathjs functions, `parseInt`/`parseFloat`, `Number(...)` and `toString`, all of which are IEEE-754 or foreign code. They are the fields of a `Kernel<N, C>` over an abstract `N`. A mathjs `Complex` is an abstract `C`, seen only through its `toString`, because the source never computes with one: as an operand it is always written out. A NUMBER token keeps its literal text, and its number is `Kernel.literal` of that text.
- Error message texts are not modelled. Errors are kinds, and lexer errors keep their offset. The `this.lexer.pos` quoted in the parser's messages is not modelled.
- The `Invalid character in symbol` branch of `symbol` (src/Lexer/index.ts:102-104) is not modelled. It is unreachable, because the run it segments consists of letters only.
- The reflective `visit` dispatch and `generic_visit` (src/Interpreter/index.ts:7-17) are a `match` over the tree datatype. The match is exhaustive, so the unknown-node fault cannot arise.
- The parser examples `a-b-c`, `- - 3`, `-2^2`, `2 x^2`, `2x^2`, `2 + 3 4`, `sinx`, `cosec(x)`, `2^-3` and `2)` start from a token stream written out by hand for the text, not from the text. The parser-test texts are proved from text.
- `LexError.UnknownCharacter` names a whole Unicode scalar value. The source's `currentChar` is one UTF-16 code unit, so for a character outside the Basic Multilingual Plane the source names its high surrogate only. Offsets are counted in scalar values, not code units. The two counts agree up to the first such character, and that character always fails the lexer, so every reported offset is the same.
- LexerWords.WhiteSpaceWidth: compares failures by kind and character but not by offset, because the offset of a failure after the changed run moves with the run.
- The REPL (repl/index.ts) and the demo script (src/index.ts) are console I/O and are not part of this model.
