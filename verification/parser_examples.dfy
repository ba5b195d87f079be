/** The trees the parser builds for the documented example inputs, and the inputs it
    rejects. Each example starts from a token stream written out by hand for the text in its
    comment. For the texts of the repository's parser tests, the lemmas at the end prove that
    the lexer delivers exactly that stream, and so give the parse of the text itself. */
module ParserExamples {

  import opened Results
  import opened Tokens
  import opened Lexer
  import opened Ast
  import opened Parser
  import opened ParserFacts
  import opened LexerExamples
  import LexerStreams

  function Glyph(k: Kind, g: char): Token { Token(k, Text([g])) }

  /** A lone NUMBER or VARIABLE before a token that ends an Expr. */
  lemma LeafExpr(s: Stream, i: nat, e: Node)
    requires At(s, i) && i + 1 < |s.toks| && (s.toks[i].kind == Number || s.toks[i].kind == Variable)
    requires e == if s.toks[i].kind == Number then Num(NumberText(s.toks[i].value)) else Symbol(AsString(s.toks[i].value))
    requires EndsExpr(s.toks[i + 1].kind)
    ensures Expr(s, i) == Ok((e, i + 1))
  {
    LeafAtom(s, i);
    ThroughLevels(s, i, e, i + 1);
  }

  /** A lone NUMBER or VARIABLE before a token that ends a Term. */
  lemma LeafTerm(s: Stream, i: nat, e: Node)
    requires At(s, i) && i + 1 < |s.toks| && (s.toks[i].kind == Number || s.toks[i].kind == Variable)
    requires e == if s.toks[i].kind == Number then Num(NumberText(s.toks[i].value)) else Symbol(AsString(s.toks[i].value))
    requires EndsTerm(s.toks[i + 1].kind)
    ensures Term(s, i) == Ok((e, i + 1))
  {
    LeafAtom(s, i);
    ThroughLevels(s, i, e, i + 1);
  }

  /** A lone NUMBER or VARIABLE before a token that ends a Power. */
  lemma LeafPower(s: Stream, i: nat, e: Node)
    requires At(s, i) && i + 1 < |s.toks| && (s.toks[i].kind == Number || s.toks[i].kind == Variable)
    requires e == if s.toks[i].kind == Number then Num(NumberText(s.toks[i].value)) else Symbol(AsString(s.toks[i].value))
    requires EndsPower(s.toks[i + 1].kind)
    ensures Power(s, i) == Ok((e, i + 1)) && Factor(s, i) == Ok((e, i + 1))
  {
    LeafAtom(s, i);
    ThroughLevels(s, i, e, i + 1);
  }

  /** A lone NUMBER or VARIABLE before a token that does not continue the Atom loop. */
  lemma LeafAtomic(s: Stream, i: nat, e: Node)
    requires At(s, i) && i + 1 < |s.toks| && (s.toks[i].kind == Number || s.toks[i].kind == Variable)
    requires e == if s.toks[i].kind == Number then Num(NumberText(s.toks[i].value)) else Symbol(AsString(s.toks[i].value))
    requires !StartsAtom(s.toks[i + 1].kind)
    ensures Atom(s, i) == Ok((e, i + 1))
  {
    LeafAtom(s, i);
    ThroughLevels(s, i, e, i + 1);
  }

  // Each example is first proved of any stream with the example's tokens at the example's
  // positions, so that the verifier never evaluates the parser on a literal stream; the
  // lemma about the literal stream then only instantiates it.

  // ---------------------------------------------------------------------------------
  // `a-b-c`: `+` and `-` fold to the left.

  function AbcStream(): Stream {
    Stream([VarTok('a'), Glyph(Minus, '-'), VarTok('b'), Glyph(Minus, '-'), VarTok('c'), EofToken], None)
  }

  lemma AbcParsed(s: Stream)
    requires ValidStream(s) && |s.toks| == 6 && s.toks[5].kind == Eof
    requires s.toks[0] == VarTok('a') && s.toks[2] == VarTok('b') && s.toks[4] == VarTok('c')
    requires s.toks[1] == Glyph(Minus, '-') && s.toks[3] == Glyph(Minus, '-')
    ensures Parse(s) == Ok(BinOp("-", BinOp("-", Symbol("a"), Symbol("b")), Symbol("c")))
  {
    var a, b, c := Symbol("a"), Symbol("b"), Symbol("c");
    LeafTerm(s, 0, a);
    ExprStarts(s, 0, a, 1);
    LeafTerm(s, 2, b);
    ExprTailStep(s, a, "-", b, 1, 3);
    LeafTerm(s, 4, c);
    ExprTailStep(s, BinOp("-", a, b), "-", c, 3, 5);
    ExprTailStops(s, BinOp("-", BinOp("-", a, b), c), 5);
    ParseOfExpr(s, BinOp("-", BinOp("-", a, b), c), 5);
  }

  lemma Abc()
    ensures Parse(AbcStream()) == Ok(BinOp("-", BinOp("-", Symbol("a"), Symbol("b")), Symbol("c")))
  {
    AbcParsed(AbcStream());
  }

  // ---------------------------------------------------------------------------------
  // `2^3^4`: `^` groups to the right.

  function PowPowStream(): Stream {
    Stream([NumTok("2"), Glyph(Pow, '^'), NumTok("3"), Glyph(Pow, '^'), NumTok("4"), EofToken], None)
  }

  lemma PowPowParsed(s: Stream)
    requires ValidStream(s) && |s.toks| == 6 && s.toks[5].kind == Eof
    requires s.toks[0] == NumTok("2") && s.toks[2] == NumTok("3") && s.toks[4] == NumTok("4")
    requires s.toks[1] == Glyph(Pow, '^') && s.toks[3] == Glyph(Pow, '^')
    ensures Parse(s) == Ok(BinOp("^", Num("2"), BinOp("^", Num("3"), Num("4"))))
  {
    var n2, n3, n4 := Num("2"), Num("3"), Num("4");
    LeafAtomic(s, 0, n2);
    LeafAtomic(s, 2, n3);
    LeafPower(s, 4, n4);
    PowerStep(s, 2, "^", n3, n4, 3, 5);
    PowerStep(s, 0, "^", n2, BinOp("^", n3, n4), 1, 5);
    ExprOfPower(s, 0, BinOp("^", n2, BinOp("^", n3, n4)), 5);
    ParseOfExpr(s, BinOp("^", n2, BinOp("^", n3, n4)), 5);
  }

  lemma PowPow()
    ensures Parse(PowPowStream()) == Ok(BinOp("^", Num("2"), BinOp("^", Num("3"), Num("4"))))
  {
    PowPowParsed(PowPowStream());
  }

  // ---------------------------------------------------------------------------------
  // `- - 3`: signs nest with the leftmost outermost.

  function MinusMinusStream(): Stream {
    Stream([Glyph(Minus, '-'), Glyph(Minus, '-'), NumTok("3"), EofToken], None)
  }

  lemma MinusMinusParsed(s: Stream)
    requires ValidStream(s) && |s.toks| == 4 && s.toks[3].kind == Eof
    requires s.toks[0].kind == Minus && s.toks[1].kind == Minus && s.toks[2] == NumTok("3")
    ensures Parse(s) == Ok(Unary(Minus, Unary(Minus, Num("3"))))
  {
    var e := Unary(Minus, Unary(Minus, Num("3")));
    LeafPower(s, 2, Num("3"));
    FactorSigned(s, 1, Num("3"), 3);
    FactorSigned(s, 0, Unary(Minus, Num("3")), 3);
    TermOfFactor(s, 0, e, 3);
    ExprOfTerm(s, 0, e, 3);
    ParseOfExpr(s, e, 3);
  }

  lemma MinusMinus()
    ensures Parse(MinusMinusStream()) == Ok(Unary(Minus, Unary(Minus, Num("3"))))
  {
    MinusMinusParsed(MinusMinusStream());
  }

  // ---------------------------------------------------------------------------------
  // `-2^2`: a sign wraps the whole power.

  function NegPowStream(): Stream {
    Stream([Glyph(Minus, '-'), NumTok("2"), Glyph(Pow, '^'), NumTok("2"), EofToken], None)
  }

  lemma NegPowParsed(s: Stream)
    requires ValidStream(s) && |s.toks| == 5 && s.toks[4].kind == Eof
    requires s.toks[0].kind == Minus && s.toks[1] == NumTok("2") && s.toks[3] == NumTok("2")
    requires s.toks[2] == Glyph(Pow, '^')
    ensures Parse(s) == Ok(Unary(Minus, BinOp("^", Num("2"), Num("2"))))
  {
    var n2 := Num("2");
    var p := BinOp("^", n2, n2);
    LeafAtomic(s, 1, n2);
    LeafPower(s, 3, n2);
    PowerStep(s, 1, "^", n2, n2, 2, 4);
    FactorOfPower(s, 1, p, 4);
    FactorSigned(s, 0, p, 4);
    TermOfFactor(s, 0, Unary(Minus, p), 4);
    ExprOfTerm(s, 0, Unary(Minus, p), 4);
    ParseOfExpr(s, Unary(Minus, p), 4);
  }

  lemma NegPow()
    ensures Parse(NegPowStream()) == Ok(Unary(Minus, BinOp("^", Num("2"), Num("2"))))
  {
    NegPowParsed(NegPowStream());
  }

  // ---------------------------------------------------------------------------------
  // `2 x^2` against `2x^2`: adjacent atoms bind tighter than `^`, the lexer's MUL does not.

  function SpacedStream(): Stream {
    Stream([NumTok("2"), VarTok('x'), Glyph(Pow, '^'), NumTok("2"), EofToken], None)
  }

  lemma SpacedParsed(s: Stream)
    requires ValidStream(s) && |s.toks| == 5 && s.toks[4].kind == Eof
    requires s.toks[0] == NumTok("2") && s.toks[1] == VarTok('x') && s.toks[3] == NumTok("2")
    requires s.toks[2] == Glyph(Pow, '^')
    ensures Parse(s) == Ok(BinOp("^", BinOp("*", Num("2"), Symbol("x")), Num("2")))
  {
    var n2, x := Num("2"), Symbol("x");
    var m := BinOp("*", n2, x);
    LeafAtom(s, 0);
    AtomStarts(s, 0, n2, 1);
    LeafAtom(s, 1);
    AtomTailStep(s, n2, 1, x, 2);
    AtomTailStops(s, m, 2);
    LeafPower(s, 3, n2);
    PowerStep(s, 0, "^", m, n2, 2, 4);
    ExprOfPower(s, 0, BinOp("^", m, n2), 4);
    ParseOfExpr(s, BinOp("^", m, n2), 4);
  }

  lemma Spaced()
    ensures Parse(SpacedStream()) == Ok(BinOp("^", BinOp("*", Num("2"), Symbol("x")), Num("2")))
  {
    SpacedParsed(SpacedStream());
  }

  function JoinedStream(): Stream {
    Stream([NumTok("2"), MulToken, VarTok('x'), Glyph(Pow, '^'), NumTok("2"), EofToken], None)
  }

  lemma JoinedParsed(s: Stream)
    requires ValidStream(s) && |s.toks| == 6 && s.toks[5].kind == Eof
    requires s.toks[0] == NumTok("2") && s.toks[1] == MulToken && s.toks[2] == VarTok('x')
    requires s.toks[3] == Glyph(Pow, '^') && s.toks[4] == NumTok("2")
    ensures Parse(s) == Ok(BinOp("*", Num("2"), BinOp("^", Symbol("x"), Num("2"))))
  {
    var n2, x := Num("2"), Symbol("x");
    var p := BinOp("^", x, n2);
    LeafPower(s, 0, n2);
    TermStarts(s, 0, n2, 1);
    LeafAtomic(s, 2, x);
    LeafPower(s, 4, n2);
    PowerStep(s, 2, "^", x, n2, 3, 5);
    FactorOfPower(s, 2, p, 5);
    TermTailStep(s, n2, "*", p, 1, 5);
    TermTailStops(s, BinOp("*", n2, p), 5);
    ExprOfTerm(s, 0, BinOp("*", n2, p), 5);
    ParseOfExpr(s, BinOp("*", n2, p), 5);
  }

  lemma Joined()
    ensures Parse(JoinedStream()) == Ok(BinOp("*", Num("2"), BinOp("^", Symbol("x"), Num("2"))))
  {
    JoinedParsed(JoinedStream());
  }

  // ---------------------------------------------------------------------------------
  // `2 + 3 4`: accepted, because the Atom loop multiplies `3 4`.

  function AdjacentStream(): Stream {
    Stream([NumTok("2"), Glyph(Plus, '+'), NumTok("3"), NumTok("4"), EofToken], None)
  }

  lemma AdjacentParsed(s: Stream)
    requires ValidStream(s) && |s.toks| == 5 && s.toks[4].kind == Eof
    requires s.toks[0] == NumTok("2") && s.toks[1] == Glyph(Plus, '+')
    requires s.toks[2] == NumTok("3") && s.toks[3] == NumTok("4")
    ensures Parse(s) == Ok(BinOp("+", Num("2"), BinOp("*", Num("3"), Num("4"))))
  {
    var n2, n3, n4 := Num("2"), Num("3"), Num("4");
    var m := BinOp("*", n3, n4);
    LeafTerm(s, 0, n2);
    ExprStarts(s, 0, n2, 1);
    LeafAtom(s, 2);
    AtomStarts(s, 2, n3, 3);
    LeafAtom(s, 3);
    AtomTailStep(s, n3, 3, n4, 4);
    AtomTailStops(s, m, 4);
    PowerOfAtom(s, 2, m, 4);
    FactorOfPower(s, 2, m, 4);
    TermOfFactor(s, 2, m, 4);
    ExprTailStep(s, n2, "+", m, 1, 4);
    ExprTailStops(s, BinOp("+", n2, m), 4);
    ParseOfExpr(s, BinOp("+", n2, m), 4);
  }

  lemma Adjacent()
    ensures Parse(AdjacentStream()) == Ok(BinOp("+", Num("2"), BinOp("*", Num("3"), Num("4"))))
  {
    AdjacentParsed(AdjacentStream());
  }

  // ---------------------------------------------------------------------------------
  // `(2 + x) * 5`: brackets make no node.

  function BracketStream(): Stream {
    Stream([Glyph(OpenBracket, '('), NumTok("2"), Glyph(Plus, '+'), VarTok('x'), Glyph(CloseBracket, ')'),
            Glyph(Mul, '*'), NumTok("5"), EofToken], None)
  }

  lemma BracketParsed(s: Stream)
    requires ValidStream(s) && |s.toks| == 8 && s.toks[7].kind == Eof
    requires s.toks[0].kind == OpenBracket && s.toks[1] == NumTok("2") && s.toks[2] == Glyph(Plus, '+')
    requires s.toks[3] == VarTok('x') && s.toks[4].kind == CloseBracket
    requires s.toks[5] == Glyph(Mul, '*') && s.toks[6] == NumTok("5")
    ensures Parse(s) == Ok(BinOp("*", BinOp("+", Num("2"), Symbol("x")), Num("5")))
  {
    var n5 := Num("5");
    var sum := BinOp("+", Num("2"), Symbol("x"));
    BracketInside(s);
    Bracketed(s, 0, sum, 4);
    ThroughLevels(s, 0, sum, 5);
    TermStarts(s, 0, sum, 5);
    LeafPower(s, 6, n5);
    TermTailStep(s, sum, "*", n5, 5, 7);
    TermTailStops(s, BinOp("*", sum, n5), 7);
    ExprOfTerm(s, 0, BinOp("*", sum, n5), 7);
    ParseOfExpr(s, BinOp("*", sum, n5), 7);
  }

  /** The bracketed `2 + x` is one Expr that stops at the `)`. */
  lemma BracketInside(s: Stream)
    requires ValidStream(s) && |s.toks| == 8 && s.toks[4].kind == CloseBracket
    requires s.toks[1] == NumTok("2") && s.toks[2] == Glyph(Plus, '+') && s.toks[3] == VarTok('x')
    ensures Expr(s, 1) == Ok((BinOp("+", Num("2"), Symbol("x")), 4))
  {
    var n2, x := Num("2"), Symbol("x");
    LeafTerm(s, 1, n2);
    ExprStarts(s, 1, n2, 2);
    LeafTerm(s, 3, x);
    ExprTailStep(s, n2, "+", x, 2, 4);
    ExprTailStops(s, BinOp("+", n2, x), 4);
  }

  lemma Bracket()
    ensures Parse(BracketStream()) == Ok(BinOp("*", BinOp("+", Num("2"), Symbol("x")), Num("5")))
  {
    BracketParsed(BracketStream());
  }

  // ---------------------------------------------------------------------------------
  // `sin(x)` and `sin(x)log(x)`, the latter with the MUL the lexer puts after `)`.

  /** A function applied to a bracketed variable. */
  lemma CallOfVariable(s: Stream, i: nat, name: string, v: char)
    requires At(s, i) && i + 4 < |s.toks| && s.toks[i] == FnTok(name) && s.toks[i + 1].kind == OpenBracket
    requires s.toks[i + 2] == VarTok(v) && s.toks[i + 3].kind == CloseBracket
    ensures SingleAtom(s, i) == Ok((FuncCall(name, Symbol([v])), i + 4))
  {
    LeafExpr(s, i + 2, Symbol([v]));
    FuncCallGlue(s, i, name, Symbol([v]), i + 3);
  }

  /** The same call as a whole Factor, when what follows ends a Power. */
  lemma CallFactor(s: Stream, i: nat, name: string, v: char)
    requires At(s, i) && i + 4 < |s.toks| && s.toks[i] == FnTok(name) && s.toks[i + 1].kind == OpenBracket
    requires s.toks[i + 2] == VarTok(v) && s.toks[i + 3].kind == CloseBracket && EndsPower(s.toks[i + 4].kind)
    ensures Factor(s, i) == Ok((FuncCall(name, Symbol([v])), i + 4))
  {
    CallOfVariable(s, i, name, v);
    ThroughLevels(s, i, FuncCall(name, Symbol([v])), i + 4);
  }

  function SinStream(): Stream {
    Stream([FnTok("sin"), Glyph(OpenBracket, '('), VarTok('x'), Glyph(CloseBracket, ')'), EofToken], None)
  }

  lemma SinParsed(s: Stream)
    requires ValidStream(s) && |s.toks| == 5 && s.toks[4].kind == Eof
    requires s.toks[0] == FnTok("sin") && s.toks[1].kind == OpenBracket
    requires s.toks[2] == VarTok('x') && s.toks[3].kind == CloseBracket
    ensures Parse(s) == Ok(FuncCall("sin", Symbol("x")))
  {
    CallOfVariable(s, 0, "sin", 'x');
    ThroughLevels(s, 0, FuncCall("sin", Symbol("x")), 4);
    ParseOfExpr(s, FuncCall("sin", Symbol("x")), 4);
  }

  lemma Sin()
    ensures Parse(SinStream()) == Ok(FuncCall("sin", Symbol("x")))
  {
    SinParsed(SinStream());
  }

  function SinLogStream(): Stream {
    Stream([FnTok("sin"), Glyph(OpenBracket, '('), VarTok('x'), Glyph(CloseBracket, ')'), MulToken,
            FnTok("log"), Glyph(OpenBracket, '('), VarTok('x'), Glyph(CloseBracket, ')'), EofToken], None)
  }

  lemma SinLogParsed(s: Stream)
    requires ValidStream(s) && |s.toks| == 10 && s.toks[9].kind == Eof
    requires s.toks[0] == FnTok("sin") && s.toks[1].kind == OpenBracket
    requires s.toks[2] == VarTok('x') && s.toks[3].kind == CloseBracket && s.toks[4] == MulToken
    requires s.toks[5] == FnTok("log") && s.toks[6].kind == OpenBracket
    requires s.toks[7] == VarTok('x') && s.toks[8].kind == CloseBracket
    ensures Parse(s) == Ok(BinOp("*", FuncCall("sin", Symbol("x")), FuncCall("log", Symbol("x"))))
  {
    var a, b := FuncCall("sin", Symbol("x")), FuncCall("log", Symbol("x"));
    CallFactor(s, 0, "sin", 'x');
    TermStarts(s, 0, a, 4);
    CallFactor(s, 5, "log", 'x');
    TermTailStep(s, a, "*", b, 4, 9);
    TermTailStops(s, BinOp("*", a, b), 9);
    ExprOfTerm(s, 0, BinOp("*", a, b), 9);
    ParseOfExpr(s, BinOp("*", a, b), 9);
  }

  lemma SinLog()
    ensures Parse(SinLogStream()) == Ok(BinOp("*", FuncCall("sin", Symbol("x")), FuncCall("log", Symbol("x"))))
  {
    SinLogParsed(SinLogStream());
  }

  // ---------------------------------------------------------------------------------
  // Rejected inputs.

  /** `sinx` lexes as FUNC sin, MUL, VARIABLE x: a function name without `(`. */
  function SinxStream(): Stream {
    Stream([FnTok("sin"), MulToken, VarTok('x'), EofToken], None)
  }

  lemma SinxRejected(s: Stream)
    requires ValidStream(s) && |s.toks| == 4 && s.toks[0].kind == Func && s.toks[1] == MulToken
    ensures Parse(s) == Err(Expected(OpenBracket, Mul))
  {
    FuncNeedsBracket(s, 0);
    PowerFailsAtAtom(s, 0, Expected(OpenBracket, Mul));
    ParseFailsAtPower(s, Expected(OpenBracket, Mul));
  }

  lemma Sinx()
    ensures Parse(SinxStream()) == Err(Expected(OpenBracket, Mul))
  {
    SinxRejected(SinxStream());
  }

  /** `cosec(x)` lexes as FUNC cos, MUL, VARIABLE e, MUL, VARIABLE c, `(`, x, `)`. */
  function CosecStream(): Stream {
    Stream([FnTok("cos"), MulToken, VarTok('e'), MulToken, VarTok('c'),
            Glyph(OpenBracket, '('), VarTok('x'), Glyph(CloseBracket, ')'), EofToken], None)
  }

  lemma Cosec()
    ensures Parse(CosecStream()) == Err(Expected(OpenBracket, Mul))
  {
    var s := CosecStream();
    FuncNeedsBracket(s, 0);
    PowerFailsAtAtom(s, 0, Expected(OpenBracket, Mul));
    ParseFailsAtPower(s, Expected(OpenBracket, Mul));
  }

  /** `2^-3`: a sign right after `^`. */
  function PowSignStream(): Stream {
    Stream([NumTok("2"), Glyph(Pow, '^'), Glyph(Minus, '-'), NumTok("3"), EofToken], None)
  }

  lemma PowSignRejected(s: Stream)
    requires ValidStream(s) && |s.toks| == 5 && s.toks[0] == NumTok("2")
    requires s.toks[1].kind == Pow && s.toks[2].kind == Minus
    ensures Parse(s) == Err(UnexpectedToken(Minus))
  {
    LeafAtomic(s, 0, Num("2"));
    NoSignAfterPow(s, 0, Num("2"), 1);
    ParseFailsAtPower(s, UnexpectedToken(Minus));
  }

  lemma PowSign()
    ensures Parse(PowSignStream()) == Err(UnexpectedToken(Minus))
  {
    PowSignRejected(PowSignStream());
  }

  /** `2)`: an unmatched `)` is left over after the expression. */
  function TrailingStream(): Stream {
    Stream([NumTok("2"), Glyph(CloseBracket, ')'), EofToken], None)
  }

  lemma Trailing()
    ensures Parse(TrailingStream()) == Err(TrailingInput(CloseBracket))
  {
    var s := TrailingStream();
    LeafExpr(s, 0, Num("2"));
    ParseOfExpr(s, Num("2"), 1);
  }

  // ---------------------------------------------------------------------------------
  // From text: the lexer's stream for each text, then the parse of that stream.

  lemma TwoPlusThreeParsed(s: Stream)
    requires ValidStream(s) && |s.toks| == 4 && s.toks[3].kind == Eof
    requires s.toks[0] == NumTok("2") && s.toks[1] == Glyph(Plus, '+') && s.toks[2] == NumTok("3")
    ensures Parse(s) == Ok(BinOp("+", Num("2"), Num("3")))
  {
    LeafTerm(s, 0, Num("2"));
    ExprStarts(s, 0, Num("2"), 1);
    LeafTerm(s, 2, Num("3"));
    ExprTailStep(s, Num("2"), "+", Num("3"), 1, 3);
    ExprTailStops(s, BinOp("+", Num("2"), Num("3")), 3);
    ParseOfExpr(s, BinOp("+", Num("2"), Num("3")), 3);
  }

  lemma TwoPlusThreeText()
    ensures ParseText("2 + 3") == Ok(BinOp("+", Num("2"), Num("3")))
  {
    TwoPlusThree();
    TwoPlusThreeParsed(Tokenize("2 + 3"));
  }

  lemma TwoXParsed(s: Stream)
    requires ValidStream(s) && |s.toks| == 4 && s.toks[3].kind == Eof
    requires s.toks[0] == NumTok("2") && s.toks[1] == MulToken && s.toks[2] == VarTok('x')
    ensures Parse(s) == Ok(BinOp("*", Num("2"), Symbol("x")))
  {
    LeafPower(s, 0, Num("2"));
    TermStarts(s, 0, Num("2"), 1);
    LeafPower(s, 2, Symbol("x"));
    TermTailStep(s, Num("2"), "*", Symbol("x"), 1, 3);
    TermTailStops(s, BinOp("*", Num("2"), Symbol("x")), 3);
    ExprOfTerm(s, 0, BinOp("*", Num("2"), Symbol("x")), 3);
    ParseOfExpr(s, BinOp("*", Num("2"), Symbol("x")), 3);
  }

  lemma TwoXText()
    ensures ParseText("2x") == Ok(BinOp("*", Num("2"), Symbol("x")))
  {
    TwoX();
    TwoXParsed(Tokenize("2x"));
  }

  lemma PowPowText()
    ensures ParseText("2^3^4") == Ok(BinOp("^", Num("2"), BinOp("^", Num("3"), Num("4"))))
  {
    LexerStreams.PowPow();
    assert Tokenize("2^3^4") == PowPowStream();
    PowPow();
  }

  lemma BracketText()
    ensures ParseText("(2 + x) * 5") == Ok(BinOp("*", BinOp("+", Num("2"), Symbol("x")), Num("5")))
  {
    LexerStreams.Bracket();
    assert Tokenize("(2 + x) * 5") == BracketStream();
    Bracket();
  }

  lemma SinText()
    ensures ParseText("sin(x)") == Ok(FuncCall("sin", Symbol("x")))
  {
    LexerStreams.SinX();
    assert Tokenize("sin(x)") == SinStream();
    Sin();
  }

  lemma SinLogText()
    ensures ParseText("sin(x)log(x)") == Ok(BinOp("*", FuncCall("sin", Symbol("x")), FuncCall("log", Symbol("x"))))
  {
    LexerStreams.SinLog();
    assert Tokenize("sin(x)log(x)") == SinLogStream();
    SinLog();
  }
}
