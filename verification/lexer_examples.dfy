/** The token streams of the lexer's documented examples, derived call by call. */
module LexerExamples {

  import opened Results
  import opened Tokens
  import opened Lexer

  // ---------------------------------------------------------------------------------
  // Which branch of `getNextToken` a call with an empty buffer takes.

  /** A letter starts `symbol`. */
  lemma LetterCall(text: string, p: nat)
    requires p < |text| && IsLetter(text[p])
    ensures Next(text, State(p, [])) == Ok(SymbolStep(text, p))
  {
    assert SkipWhiteSpace(text, p) == p;
  }

  /** A digit starts `number`; nothing is buffered when the run is not followed directly by a
      letter or `(`. */
  lemma NumberCall(text: string, p: nat, end: nat)
    requires p < |text| && IsDigit(text[p]) && ScanNumber(text, p, p, false) == Ok(end)
    requires end == |text| || (!IsLetter(text[end]) && text[end] != '(')
    ensures Next(text, State(p, [])) == Ok((Token(Number, NumberValue(text[p..end])), State(end, [])))
  {
    assert SkipWhiteSpace(text, p) == p;
  }

  /** A digit starts `number`; a MUL is buffered when the run is followed directly by a letter or `(`. */
  lemma NumberMulCall(text: string, p: nat, end: nat)
    requires p < |text| && IsDigit(text[p]) && ScanNumber(text, p, p, false) == Ok(end)
    requires end < |text| && (IsLetter(text[end]) || text[end] == '(')
    ensures Next(text, State(p, [])) == Ok((Token(Number, NumberValue(text[p..end])), State(end, [MulToken])))
  {
    assert SkipWhiteSpace(text, p) == p;
  }

  /** A digit starts `number`, and the call fails where the scan fails. */
  lemma NumberErrorCall(text: string, p: nat, e: LexError)
    requires p < |text| && IsDigit(text[p]) && ScanNumber(text, p, p, false) == Err(e)
    ensures Next(text, State(p, [])) == Err(e)
  {
    assert SkipWhiteSpace(text, p) == p;
  }

  /** An operator or `(` is one token of its own glyph. */
  lemma GlyphCall(text: string, p: nat, k: Kind)
    requires p < |text| && text[p] != ')' && GlyphKind(text[p]) == Some(k)
    ensures Next(text, State(p, [])) == Ok((Token(k, Text([text[p]])), State(p + 1, [])))
  {
    assert SkipWhiteSpace(text, p) == p;
  }

  /** `)` may buffer a MUL. */
  lemma CloseCall(text: string, p: nat)
    requires p < |text| && text[p] == ')'
    ensures Next(text, State(p, [])) == Ok(CloseStep(text, p))
  {
    assert SkipWhiteSpace(text, p) == p;
  }

  /** A whitespace character is passed over. */
  lemma SpaceCall(text: string, p: nat)
    requires p < |text| && IsWhiteSpace(text[p])
    ensures Next(text, State(p, [])) == Next(text, State(p + 1, []))
  {
    assert SkipWhiteSpace(text, p) == SkipWhiteSpace(text, p + 1);
  }

  // ---------------------------------------------------------------------------------
  // Assembling a stream from its calls.

  /** One non-EOF call, then the rest of the stream. */
  lemma DrainStep(text: string, st: State, t: Token, st': State)
    requires Valid(text, st) && Next(text, st) == Ok((t, st')) && t.kind != Eof
    ensures Valid(text, st')
    ensures Drain(text, st) == Stream([t] + Drain(text, st').toks, Drain(text, st').fault)
  {
  }

  /** The call at the end of the input ends the stream with EOF. */
  lemma DrainEnd(text: string)
    ensures Drain(text, State(|text|, [])) == Stream([EofToken], None)
  {
    assert SkipWhiteSpace(text, |text|) == |text|;
  }

  /** A failing call ends the stream with its error. */
  lemma DrainError(text: string, st: State, e: LexError)
    requires Valid(text, st) && Next(text, st) == Err(e)
    ensures Drain(text, st) == Stream([], Some(e))
  {
  }

  function NumTok(lit: string): Token { Token(Number, NumberValue(lit)) }
  function VarTok(c: char): Token { Token(Variable, Text([c])) }
  function FnTok(name: string): Token { Token(Func, Text(name)) }

  // ---------------------------------------------------------------------------------
  // `2 + 3`: each call first, then the stream from the back.

  lemma TwoPlusThreeCall0()
    ensures Next("2 + 3", Start) == Ok((NumTok("2"), State(1, [])))
  {
    var t := "2 + 3";
    assert ScanNumber(t, 0, 1, false) == Ok(1);
    assert t[0..1] == "2";
    NumberCall(t, 0, 1);
  }

  lemma TwoPlusThreeCall1()
    ensures Next("2 + 3", State(1, [])) == Ok((Token(Plus, Text("+")), State(3, [])))
  {
    SpaceCall("2 + 3", 1);
    GlyphCall("2 + 3", 2, Plus);
  }

  lemma TwoPlusThreeCall2()
    ensures Next("2 + 3", State(3, [])) == Ok((NumTok("3"), State(5, [])))
  {
    var t := "2 + 3";
    SpaceCall(t, 3);
    assert ScanNumber(t, 4, 5, false) == Ok(5);
    assert t[4..5] == "3";
    NumberCall(t, 4, 5);
  }

  lemma TwoPlusThreeFrom3()
    ensures Drain("2 + 3", State(3, [])) == Stream([NumTok("3"), EofToken], None)
  {
    TwoPlusThreeCall2();
    DrainEnd("2 + 3");
    DrainStep("2 + 3", State(3, []), NumTok("3"), State(5, []));
  }

  lemma TwoPlusThreeFrom1()
    ensures Drain("2 + 3", State(1, [])) == Stream([Token(Plus, Text("+")), NumTok("3"), EofToken], None)
  {
    TwoPlusThreeCall1();
    TwoPlusThreeFrom3();
    DrainStep("2 + 3", State(1, []), Token(Plus, Text("+")), State(3, []));
  }

  /** `2 + 3` is NUMBER 2, PLUS, NUMBER 3, EOF. */
  lemma TwoPlusThree()
    ensures Tokenize("2 + 3") == Stream([NumTok("2"), Token(Plus, Text("+")), NumTok("3"), EofToken], None)
  {
    TwoPlusThreeFrom0();
  }

  lemma TwoPlusThreeFrom0()
    ensures Drain("2 + 3", Start) == Stream([NumTok("2"), Token(Plus, Text("+")), NumTok("3"), EofToken], None)
  {
    TwoPlusThreeCall0();
    TwoPlusThreeFrom1();
    DrainStep("2 + 3", Start, NumTok("2"), State(1, []));
  }

  // ---------------------------------------------------------------------------------
  // `2x`

  lemma TwoXCall0()
    ensures Next("2x", Start) == Ok((NumTok("2"), State(1, [MulToken])))
  {
    var t := "2x";
    assert ScanNumber(t, 0, 1, false) == Ok(1);
    assert t[0..1] == "2";
    NumberMulCall(t, 0, 1);
  }

  lemma TwoXCall2()
    ensures Next("2x", State(1, [])) == Ok((VarTok('x'), State(2, [])))
  {
    var t := "2x";
    assert LetterRunEnd(t, 1) == 2;
    var run := t[1..2];
    assert run == "x";
    assert MatchAt(run, 0) == None;
    assert Pieces(run, 0) == [VarTok('x')];
    LetterCall(t, 1);
  }

  lemma TwoXFrom1()
    ensures Drain("2x", State(1, [MulToken])) == Stream([MulToken, VarTok('x'), EofToken], None)
  {
    TwoXCall2();
    DrainEnd("2x");
    DrainStep("2x", State(1, []), VarTok('x'), State(2, []));
    MulTokenWellFormed();
    assert Next("2x", State(1, [MulToken])) == Ok((MulToken, State(1, [])));
    DrainStep("2x", State(1, [MulToken]), MulToken, State(1, []));
  }

  /** `2x` is NUMBER 2, MUL, VARIABLE x, EOF: the MUL is buffered by the number. */
  lemma TwoX()
    ensures Tokenize("2x") == Stream([NumTok("2"), MulToken, VarTok('x'), EofToken], None)
  {
    TwoXFrom0();
  }

  lemma TwoXFrom0()
    ensures Drain("2x", Start) == Stream([NumTok("2"), MulToken, VarTok('x'), EofToken], None)
  {
    TwoXCall0();
    TwoXFrom1();
    DrainStep("2x", Start, NumTok("2"), State(1, [MulToken]));
  }

  // ---------------------------------------------------------------------------------
  // Errors.

  /** `3.12.1` fails at its second dot, offset 4 (0-based). */
  lemma SecondDot()
    ensures Tokenize("3.12.1") == Stream([], Some(MultipleDots(4)))
  {
    var t := "3.12.1";
    assert t[0..2] == "3." && t[0..4] == "3.12";
    assert "3.12"[..3] == "3.1" && "3.1"[..2] == "3." && "3."[..1] == "3";
    assert DotCount("3.") == 1 && DotCount("3.1") == 1 && DotCount("3.12") == 1;
    assert ScanNumber(t, 0, 4, true) == Err(MultipleDots(4));
    assert ScanNumber(t, 0, 2, true) == Err(MultipleDots(4));
    assert ScanNumber(t, 0, 0, false) == Err(MultipleDots(4));
    NumberErrorCall(t, 0, MultipleDots(4));
    DrainError(t, Start, MultipleDots(4));
  }

  /** A leading `.` starts no token. */
  lemma LeadingDot()
    ensures Tokenize(".5") == Stream([], Some(UnknownCharacter('.', 0)))
  {
    var t := ".5";
    assert SkipWhiteSpace(t, 0) == 0;
    assert Next(t, Start) == Err(UnknownCharacter('.', 0));
    DrainError(t, Start, UnknownCharacter('.', 0));
  }

  // ---------------------------------------------------------------------------------
  // `cosec`: `cos` is tried first, so the run splits as cos, e, c.

  /** Only `ln` is as short as two letters, so no name fits in the last two letters of a run
      unless they are `ln`. */
  lemma NoNameAt(run: string, i: nat)
    requires i < |run| && |run| - i <= 2 && run[i] != 'l'
    ensures MatchAt(run, i) == None
  {
    forall n | 0 <= n < |FuncNames| ensures !NameMatches(run, i, n) {
      FuncNameLength(n);
      if FuncNames[n] == "ln" {
        assert FuncNames[n][0] == 'l';
      }
    }
  }

  // The run is a parameter equal to "cosec" rather than the literal itself, so that the
  // verifier evaluates only the steps these lemmas spell out.

  lemma CosecFirstPiece(run: string)
    requires run == "cosec"
    ensures IsLetterRun(run) && FirstPiece(run, 0) == FnTok("cos")
  {
    assert IsLetterRun(run) by {
      forall k | 0 <= k < |run| ensures LetterAt(run, k) { }
    }
    assert !NameMatches(run, 0, 0) by { assert run[0..3][0] == 'c' && FuncNames[0][0] == 's'; }
    assert NameMatches(run, 0, 1) by { assert run[0..3] == "cos"; }
    assert MatchAt(run, 0) == Some("cos");
  }

  lemma CosecLaterPieces(run: string)
    requires run == "cosec" && IsLetterRun(run)
    ensures FirstPiece(run, 3) == VarTok('e') && FirstPiece(run, 4) == VarTok('c')
  {
    NoNameAt(run, 3);
    NoNameAt(run, 4);
  }

  /** One step of the segmentation loop: the first piece, then the pieces after it. */
  lemma PiecesStep(run: string, i: nat)
    requires i < |run| && IsLetterRun(run)
    ensures Pieces(run, i)[0] == FirstPiece(run, i)
    ensures Pieces(run, i)[1..] == Pieces(run, i + |PieceText(FirstPiece(run, i))|)
  {
  }

  // The three steps below use only the lengths of the first pieces at 0, 3 and 4.

  lemma LastPiece(run: string, c: Token)
    requires |run| == 5 && IsLetterRun(run) && FirstPiece(run, 4) == c && |PieceText(c)| == 1
    ensures Pieces(run, 4) == [c]
  {
    PiecesStep(run, 4);
  }

  lemma LastTwoPieces(run: string, b: Token, c: Token)
    requires |run| == 5 && IsLetterRun(run) && FirstPiece(run, 4) == c && |PieceText(c)| == 1
    requires FirstPiece(run, 3) == b && |PieceText(b)| == 1
    ensures Pieces(run, 3) == [b, c]
  {
    LastPiece(run, c);
    PiecesStep(run, 3);
    var p := Pieces(run, 3);
    assert p[1..] == [c];
  }

  lemma ThreePieces(run: string, a: Token, b: Token, c: Token)
    requires |run| == 5 && IsLetterRun(run) && FirstPiece(run, 4) == c && |PieceText(c)| == 1
    requires FirstPiece(run, 3) == b && |PieceText(b)| == 1
    requires FirstPiece(run, 0) == a && |PieceText(a)| == 3
    ensures Pieces(run, 0) == [a, b, c]
  {
    LastTwoPieces(run, b, c);
    PiecesStep(run, 0);
    var p := Pieces(run, 0);
    assert p[1..] == [b, c];
  }

  lemma CosecPieces(run: string)
    requires run == "cosec"
    ensures IsLetterRun(run) && Pieces(run, 0) == [FnTok("cos"), VarTok('e'), VarTok('c')]
  {
    CosecFirstPiece(run);
    CosecLaterPieces(run);
    ThreePieces(run, FnTok("cos"), VarTok('e'), VarTok('c'));
  }

  lemma JoinCons(p: Token, rest: seq<Token>)
    requires |rest| > 0
    ensures JoinWithMul([p] + rest) == [p, MulToken] + JoinWithMul(rest)
  {
    assert ([p] + rest)[1..] == rest;
  }

  lemma CosecJoined()
    ensures JoinWithMul([FnTok("cos"), VarTok('e'), VarTok('c')]) == [FnTok("cos"), MulToken, VarTok('e'), MulToken, VarTok('c')]
  {
    assert JoinWithMul([VarTok('c')]) == [VarTok('c')];
    assert [VarTok('e'), VarTok('c')] == [VarTok('e')] + [VarTok('c')];
    JoinCons(VarTok('e'), [VarTok('c')]);
    assert [FnTok("cos"), VarTok('e'), VarTok('c')] == [FnTok("cos")] + [VarTok('e'), VarTok('c')];
    JoinCons(FnTok("cos"), [VarTok('e'), VarTok('c')]);
  }

  /** The first call on `cosec` returns FUNC cos and buffers MUL, e, MUL, c. */
  lemma CosecCall()
    ensures Next("cosec", Start) == Ok((FnTok("cos"), State(5, [MulToken, VarTok('e'), MulToken, VarTok('c')])))
  {
    var t := "cosec";
    assert LetterRunEnd(t, 0) == 5;
    assert t[0..5] == t;
    CosecPieces(t[0..5]);
    CosecJoined();
    LetterCall(t, 0);
  }
}
