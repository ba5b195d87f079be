/** Whole token streams: the lexer's implicit-multiplication examples with function names,
    the texts of the parser tests, and the whitespace example of `skipWhiteSpace`. */
module LexerStreams {

  import opened Results
  import opened Tokens
  import opened Lexer
  import opened LexerExamples
  import LexerWords

  const OpenTok: Token := Token(OpenBracket, Text("("))
  const CloseTok: Token := Token(CloseBracket, Text(")"))

  /** Every function name starts with one of `s c t a l e`. */
  lemma FirstLetters(n: nat)
    requires n < |FuncNames|
    ensures |FuncNames[n]| > 0 && FuncNames[n][0] in "sctale"
    ensures FuncNames[n][0] == 'l' <==> n == 6 || n == 7
  {
  }

  /** No name matches at a letter no name starts with. */
  lemma NoNameStartsWith(run: string, i: nat)
    requires i < |run| && run[i] !in "sctale"
    ensures MatchAt(run, i) == None
  {
    forall n | 0 <= n < |FuncNames| ensures !NameMatches(run, i, n) {
      FirstLetters(n);
    }
  }

  // ---------------------------------------------------------------------------------
  // Calls that several streams share.

  /** The letter run at `p` ends at the first non-letter. */
  lemma RunEnd(text: string, p: nat, e: nat)
    requires p <= e <= |text| && (forall k :: p <= k < e ==> IsLetter(text[k]))
    requires e == |text| || !IsLetter(text[e])
    ensures LetterRunEnd(text, p) == e
  {
    var r := LetterRunEnd(text, p);
  }

  /** A lone letter `x` is one VARIABLE token. */
  lemma XCall(text: string, p: nat)
    requires p < |text| && text[p] == 'x' && (p + 1 == |text| || !IsLetter(text[p + 1]))
    ensures Next(text, State(p, [])) == Ok((VarTok('x'), State(p + 1, [])))
  {
    RunEnd(text, p, p + 1);
    var run := text[p..p + 1];
    assert run == "x";
    NoNameStartsWith(run, 0);
    assert Pieces(run, 0) == [VarTok('x')];
    LetterCall(text, p);
  }

  /** `(` is one OPERBRACKET token. */
  lemma OpenCall(text: string, p: nat)
    requires p < |text| && text[p] == '('
    ensures Next(text, State(p, [])) == Ok((OpenTok, State(p + 1, [])))
  {
    assert [text[p]] == "(";
    GlyphCall(text, p, OpenBracket);
  }

  /** `)` at the end of the text buffers nothing. */
  lemma CloseLastCall(text: string, p: nat)
    requires p + 1 == |text| && text[p] == ')'
    ensures Next(text, State(p, [])) == Ok((CloseTok, State(p + 1, [])))
  {
    assert CloseStep(text, p) == (CloseTok, State(p + 1, []));
    CloseCall(text, p);
  }

  /** `)` directly followed by a letter buffers a MUL. */
  lemma CloseMulCall(text: string, p: nat)
    requires p + 1 < |text| && text[p] == ')' && IsLetter(text[p + 1])
    ensures Next(text, State(p, [])) == Ok((CloseTok, State(p + 1, [MulToken])))
  {
    assert CloseStep(text, p) == (CloseTok, State(p + 1, [MulToken]));
    CloseCall(text, p);
  }

  /** The numeral `2` directly followed by a letter buffers a MUL. */
  lemma TwoMulCall(text: string, p: nat)
    requires p + 1 < |text| && text[p] == '2' && IsLetter(text[p + 1])
    ensures Next(text, State(p, [])) == Ok((NumTok("2"), State(p + 1, [MulToken])))
  {
    assert ScanNumber(text, p, p + 1, false) == Ok(p + 1);
    assert text[p..p + 1] == "2";
    NumberMulCall(text, p, p + 1);
  }

  /** A one-digit numeral followed by neither a numeral character, a letter nor `(` is one
      NUMBER token and buffers nothing. */
  lemma DigitCall(text: string, p: nat)
    requires p < |text| && IsDigit(text[p])
    requires p + 1 == |text| || (!IsNumeralChar(text[p + 1]) && !IsLetter(text[p + 1]) && text[p + 1] != '(')
    ensures Next(text, State(p, [])) == Ok((NumTok([text[p]]), State(p + 1, [])))
  {
    assert ScanNumber(text, p, p + 1, false) == Ok(p + 1);
    assert text[p..p + 1] == [text[p]];
    NumberCall(text, p, p + 1);
  }

  /** A buffered token comes out first, without moving. */
  lemma BufferCall(text: string, p: nat, t: Token, buf: seq<Token>)
    requires Valid(text, State(p, [t] + buf))
    ensures Next(text, State(p, [t] + buf)) == Ok((t, State(p, buf)))
  {
    assert ([t] + buf)[1..] == buf;
  }

  // ---------------------------------------------------------------------------------
  // Letter runs of the examples.

  lemma TwoPieces(run: string, a: Token, b: Token)
    requires |run| == 4 && IsLetterRun(run)
    requires FirstPiece(run, 0) == a && |PieceText(a)| == 1
    requires FirstPiece(run, 1) == b && |PieceText(b)| == 3
    ensures Pieces(run, 0) == [a, b]
  {
    PiecesStep(run, 1);
    PiecesStep(run, 0);
    var p := Pieces(run, 0);
    assert p[1..] == [b];
  }

  /** `xsin` splits as x, sin. */
  lemma XSinPieces(run: string)
    requires run == "xsin"
    ensures IsLetterRun(run) && Pieces(run, 0) == [VarTok('x'), FnTok("sin")]
  {
    assert IsLetterRun(run) by {
      forall k | 0 <= k < |run| ensures LetterAt(run, k) { }
    }
    NoNameStartsWith(run, 0);
    assert NameMatches(run, 1, 0) by { assert run[1..4] == "sin"; }
    assert MatchAt(run, 1) == Some("sin");
    TwoPieces(run, VarTok('x'), FnTok("sin"));
  }

  lemma XSinJoined()
    ensures JoinWithMul([VarTok('x'), FnTok("sin")]) == [VarTok('x'), MulToken, FnTok("sin")]
  {
    assert JoinWithMul([FnTok("sin")]) == [FnTok("sin")];
    assert [VarTok('x'), FnTok("sin")] == [VarTok('x')] + [FnTok("sin")];
    JoinCons(VarTok('x'), [FnTok("sin")]);
  }

  /** A run that is exactly one function name is one FUNC piece. */
  lemma NamePieces(run: string, n: nat)
    requires n < |FuncNames| && run == FuncNames[n] && IsLetterRun(run)
    requires forall j :: 0 <= j < n ==> !NameMatches(run, 0, j)
    ensures Pieces(run, 0) == [FnTok(run)]
  {
    assert NameMatches(run, 0, n);
    assert FirstMatch(run, 0, 0) == Some(n);
    assert FirstPiece(run, 0) == FnTok(run);
    PiecesStep(run, 0);
  }

  lemma SinPieces(run: string)
    requires run == "sin"
    ensures IsLetterRun(run) && Pieces(run, 0) == [FnTok("sin")]
  {
    assert IsLetterRun(run) by {
      forall k | 0 <= k < |run| ensures LetterAt(run, k) { }
    }
    NamePieces(run, 0);
  }

  lemma LogPieces(run: string)
    requires run == "log"
    ensures IsLetterRun(run) && Pieces(run, 0) == [FnTok("log")]
  {
    assert IsLetterRun(run) by {
      forall k | 0 <= k < |run| ensures LetterAt(run, k) { }
    }
    forall j | 0 <= j < 6 ensures !NameMatches(run, 0, j) {
      FirstLetters(j);
    }
    NamePieces(run, 6);
  }

  /** The run `xsin` gives VARIABLE x and buffers MUL, FUNC sin. */
  lemma XSinCall(text: string, p: nat)
    requires p + 4 <= |text| && text[p..p + 4] == "xsin" && (p + 4 == |text| || !IsLetter(text[p + 4]))
    ensures Next(text, State(p, [])) == Ok((VarTok('x'), State(p + 4, [MulToken, FnTok("sin")])))
  {
    forall k | p <= k < p + 4 ensures IsLetter(text[k]) {
      assert text[k] == text[p..p + 4][k - p];
    }
    RunEnd(text, p, p + 4);
    XSinPieces(text[p..p + 4]);
    XSinJoined();
    LetterCall(text, p);
  }

  /** A run that is exactly `sin` or `log` gives one FUNC token. */
  lemma NameCall(text: string, p: nat, name: string)
    requires name == "sin" || name == "log"
    requires p + 3 <= |text| && text[p..p + 3] == name && (p + 3 == |text| || !IsLetter(text[p + 3]))
    ensures Next(text, State(p, [])) == Ok((FnTok(name), State(p + 3, [])))
  {
    forall k | p <= k < p + 3 ensures IsLetter(text[k]) {
      assert text[k] == text[p..p + 3][k - p];
    }
    RunEnd(text, p, p + 3);
    if name == "sin" { SinPieces(text[p..p + 3]); } else { LogPieces(text[p..p + 3]); }
    assert JoinWithMul([FnTok(name)]) == [FnTok(name)];
    LetterCall(text, p);
  }

  // ---------------------------------------------------------------------------------
  // A stream from its calls.

  /** The `k`-th call delivers `toks[k]` and moves from `sts[k]` to `sts[k + 1]`. */
  predicate Delivers(text: string, sts: seq<State>, toks: seq<Token>, k: nat) {
    && k < |toks| && |sts| == |toks| + 1
    && Valid(text, sts[k]) && toks[k].kind != Eof
    && Next(text, sts[k]) == Ok((toks[k], sts[k + 1]))
  }

  lemma DeliversTail(text: string, sts: seq<State>, toks: seq<Token>)
    requires 0 < |toks| && |sts| == |toks| + 1
    requires forall k :: 0 <= k < |toks| ==> Delivers(text, sts, toks, k)
    ensures forall k :: 0 <= k < |toks| - 1 ==> Delivers(text, sts[1..], toks[1..], k)
  {
    forall k | 0 <= k < |toks| - 1 ensures Delivers(text, sts[1..], toks[1..], k) {
      assert Delivers(text, sts, toks, k + 1);
    }
  }

  /** Calls that deliver `toks` one by one through `sts`, ending at the end of the text
      with nothing buffered, drain to `toks` and EOF. */
  lemma {:induction false} DrainSteps(text: string, sts: seq<State>, toks: seq<Token>)
    requires |sts| == |toks| + 1 && Valid(text, sts[0]) && sts[|toks|] == State(|text|, [])
    requires forall k :: 0 <= k < |toks| ==> Delivers(text, sts, toks, k)
    ensures Drain(text, sts[0]) == Stream(toks + [EofToken], None)
    decreases |toks|
  {
    if |toks| == 0 {
      DrainEnd(text);
    } else {
      assert Delivers(text, sts, toks, 0);
      DeliversTail(text, sts, toks);
      DrainSteps(text, sts[1..], toks[1..]);
      assert sts[1..][0] == sts[1];
      DrainFirst(text, sts, toks);
    }
  }

  /** The first call, then the stream of the rest. */
  lemma DrainFirst(text: string, sts: seq<State>, toks: seq<Token>)
    requires 0 < |toks| && Delivers(text, sts, toks, 0)
    requires Drain(text, sts[1]) == Stream(toks[1..] + [EofToken], None)
    ensures Drain(text, sts[0]) == Stream(toks + [EofToken], None)
  {
    DrainStep(text, sts[0], toks[0], sts[1]);
    ConsSnoc(toks, EofToken);
  }

  lemma ConsSnoc<T>(s: seq<T>, x: T)
    requires 0 < |s|
    ensures s + [x] == [s[0]] + (s[1..] + [x])
  {
  }

  // ---------------------------------------------------------------------------------
  // `2xsin(x)`

  predicate TwoXSinText(text: string) {
    && |text| == 8 && text[0] == '2' && text[1] == 'x' && text[1..5] == "xsin"
    && text[5] == '(' && text[6] == 'x' && text[7] == ')'
  }

  const TwoXSinStates: seq<State> :=
    [State(0, []), State(1, [MulToken]), State(1, []), State(5, [MulToken, FnTok("sin")]),
     State(5, [FnTok("sin")]), State(5, []), State(6, []), State(7, []), State(8, [])]

  const TwoXSinToks: seq<Token> :=
    [NumTok("2"), MulToken, VarTok('x'), MulToken, FnTok("sin"), OpenTok, VarTok('x'), CloseTok]

  lemma TwoXSinFront(text: string)
    requires TwoXSinText(text)
    ensures forall k :: 0 <= k < 4 ==> Delivers(text, TwoXSinStates, TwoXSinToks, k)
  {
    FuncTokenWellFormed("sin");
    MulTokenWellFormed();
    forall k | 0 <= k < 4 ensures Delivers(text, TwoXSinStates, TwoXSinToks, k) {
      if k == 0 {
        TwoMulCall(text, 0);
      } else if k == 1 {
        BufferCall(text, 1, MulToken, []);
      } else if k == 2 {
        XSinCall(text, 1);
      } else {
        BufferCall(text, 5, MulToken, [FnTok("sin")]);
      }
    }
  }

  lemma TwoXSinBack(text: string)
    requires TwoXSinText(text)
    ensures forall k :: 4 <= k < 8 ==> Delivers(text, TwoXSinStates, TwoXSinToks, k)
  {
    FuncTokenWellFormed("sin");
    forall k | 4 <= k < 8 ensures Delivers(text, TwoXSinStates, TwoXSinToks, k) {
      if k == 4 {
        BufferCall(text, 5, FnTok("sin"), []);
      } else if k == 5 {
        OpenCall(text, 5);
      } else if k == 6 {
        XCall(text, 6);
      } else {
        CloseLastCall(text, 7);
      }
    }
  }

  /** `2xsin(x)` is NUMBER 2, MUL, VARIABLE x, MUL, FUNC sin, OPERBRACKET, VARIABLE x,
      CLOSEBRACKET, EOF. */
  lemma TwoXSin()
    ensures Tokenize("2xsin(x)")
            == Stream([NumTok("2"), MulToken, VarTok('x'), MulToken, FnTok("sin"),
                       OpenTok, VarTok('x'), CloseTok, EofToken], None)
  {
    TwoXSinDrain("2xsin(x)");
  }

  lemma TwoXSinDrain(text: string)
    requires text == "2xsin(x)"
    ensures Drain(text, Start) == Stream(TwoXSinToks + [EofToken], None)
  {
    assert text[1..5] == "xsin" by {
      assert text[1] == 'x' && text[2] == 's' && text[3] == 'i' && text[4] == 'n';
    }
    TwoXSinFront(text);
    TwoXSinBack(text);
    DrainSteps(text, TwoXSinStates, TwoXSinToks);
  }

  // ---------------------------------------------------------------------------------
  // `sin(x)log(x)`: the `)` buffers a MUL because a letter follows.

  predicate SinLogText(text: string) {
    && |text| == 12 && text[0..3] == "sin" && text[3] == '(' && text[4] == 'x' && text[5] == ')'
    && text[6] == 'l' && text[6..9] == "log" && text[9] == '(' && text[10] == 'x' && text[11] == ')'
  }

  const SinLogStates: seq<State> :=
    [State(0, []), State(3, []), State(4, []), State(5, []), State(6, [MulToken]),
     State(6, []), State(9, []), State(10, []), State(11, []), State(12, [])]

  const SinLogToks: seq<Token> :=
    [FnTok("sin"), OpenTok, VarTok('x'), CloseTok, MulToken, FnTok("log"), OpenTok, VarTok('x'), CloseTok]

  lemma SinLogFront(text: string)
    requires SinLogText(text)
    ensures forall k :: 0 <= k < 3 ==> Delivers(text, SinLogStates, SinLogToks, k)
  {
    forall k | 0 <= k < 3 ensures Delivers(text, SinLogStates, SinLogToks, k) {
      if k == 0 {
        NameCall(text, 0, "sin");
      } else if k == 1 {
        OpenCall(text, 3);
      } else {
        XCall(text, 4);
      }
    }
  }

  lemma SinLogMiddle(text: string)
    requires SinLogText(text)
    ensures forall k :: 3 <= k < 5 ==> Delivers(text, SinLogStates, SinLogToks, k)
  {
    MulTokenWellFormed();
    forall k | 3 <= k < 5 ensures Delivers(text, SinLogStates, SinLogToks, k) {
      if k == 3 {
        CloseMulCall(text, 5);
      } else {
        BufferCall(text, 6, MulToken, []);
      }
    }
  }

  lemma SinLogBack(text: string)
    requires SinLogText(text)
    ensures forall k :: 5 <= k < 9 ==> Delivers(text, SinLogStates, SinLogToks, k)
  {
    forall k | 5 <= k < 9 ensures Delivers(text, SinLogStates, SinLogToks, k) {
      if k == 5 {
        NameCall(text, 6, "log");
      } else if k == 6 {
        OpenCall(text, 9);
      } else if k == 7 {
        XCall(text, 10);
      } else {
        CloseLastCall(text, 11);
      }
    }
  }

  /** `sin(x)log(x)` is FUNC sin, OPERBRACKET, VARIABLE x, CLOSEBRACKET, MUL, FUNC log,
      OPERBRACKET, VARIABLE x, CLOSEBRACKET, EOF. */
  lemma SinLog()
    ensures Tokenize("sin(x)log(x)")
            == Stream([FnTok("sin"), OpenTok, VarTok('x'), CloseTok, MulToken, FnTok("log"),
                       OpenTok, VarTok('x'), CloseTok, EofToken], None)
  {
    SinLogDrain("sin(x)log(x)");
  }

  lemma SinLogDrain(text: string)
    requires text == "sin(x)log(x)"
    ensures Drain(text, Start) == Stream(SinLogToks + [EofToken], None)
  {
    assert text[0..3] == "sin" by { assert text[0] == 's' && text[1] == 'i' && text[2] == 'n'; }
    assert text[6..9] == "log" by { assert text[6] == 'l' && text[7] == 'o' && text[8] == 'g'; }
    SinLogFront(text);
    SinLogMiddle(text);
    SinLogBack(text);
    DrainSteps(text, SinLogStates, SinLogToks);
  }

  // ---------------------------------------------------------------------------------
  // `sin(x)`

  predicate SinXChars(text: string) {
    |text| == 6 && text[0..3] == "sin" && text[3] == '(' && text[4] == 'x' && text[5] == ')'
  }

  const SinXStates: seq<State> := [State(0, []), State(3, []), State(4, []), State(5, []), State(6, [])]

  const SinXToks: seq<Token> := [FnTok("sin"), OpenTok, VarTok('x'), CloseTok]

  lemma SinXCalls(text: string)
    requires SinXChars(text)
    ensures forall k :: 0 <= k < 4 ==> Delivers(text, SinXStates, SinXToks, k)
  {
    forall k | 0 <= k < 4 ensures Delivers(text, SinXStates, SinXToks, k) {
      if k == 0 {
        NameCall(text, 0, "sin");
      } else if k == 1 {
        OpenCall(text, 3);
      } else if k == 2 {
        XCall(text, 4);
      } else {
        CloseLastCall(text, 5);
      }
    }
  }

  lemma SinXDrain(text: string)
    requires text == "sin(x)"
    ensures Drain(text, Start) == Stream(SinXToks + [EofToken], None)
  {
    assert text[0..3] == "sin" by { assert text[0] == 's' && text[1] == 'i' && text[2] == 'n'; }
    SinXCalls(text);
    DrainSteps(text, SinXStates, SinXToks);
  }

  /** `sin(x)` is FUNC sin, OPERBRACKET, VARIABLE x, CLOSEBRACKET, EOF. */
  lemma SinX()
    ensures Tokenize("sin(x)") == Stream([FnTok("sin"), OpenTok, VarTok('x'), CloseTok, EofToken], None)
  {
    SinXDrain("sin(x)");
  }

  // ---------------------------------------------------------------------------------
  // `2^3^4`

  const PowTok: Token := Token(Pow, Text("^"))

  predicate PowPowChars(text: string) {
    && |text| == 5 && text[0] == '2' && text[1] == '^' && text[2] == '3' && text[3] == '^' && text[4] == '4'
  }

  const PowPowStates: seq<State> := [State(0, []), State(1, []), State(2, []), State(3, []), State(4, []), State(5, [])]

  const PowPowToks: seq<Token> := [NumTok("2"), PowTok, NumTok("3"), PowTok, NumTok("4")]

  lemma PowPowCalls(text: string)
    requires PowPowChars(text)
    ensures forall k :: 0 <= k < 5 ==> Delivers(text, PowPowStates, PowPowToks, k)
  {
    forall k | 0 <= k < 5 ensures Delivers(text, PowPowStates, PowPowToks, k) {
      if k % 2 == 0 {
        DigitCall(text, k);
      } else {
        GlyphCall(text, k, Pow);
      }
    }
  }

  lemma PowPowDrain(text: string)
    requires text == "2^3^4"
    ensures Drain(text, Start) == Stream(PowPowToks + [EofToken], None)
  {
    PowPowCalls(text);
    DrainSteps(text, PowPowStates, PowPowToks);
  }

  /** `2^3^4` is NUMBER 2, POW, NUMBER 3, POW, NUMBER 4, EOF. */
  lemma PowPow()
    ensures Tokenize("2^3^4") == Stream([NumTok("2"), PowTok, NumTok("3"), PowTok, NumTok("4"), EofToken], None)
  {
    PowPowDrain("2^3^4");
  }

  // ---------------------------------------------------------------------------------
  // `(2 + x) * 5`: whitespace separates tokens, so no MUL is buffered after `2` or `)`.

  const PlusTok: Token := Token(Plus, Text("+"))

  predicate BracketChars(text: string) {
    && |text| == 11 && text[0] == '(' && text[1] == '2' && text[2] == ' ' && text[3] == '+'
    && text[4] == ' ' && text[5] == 'x' && text[6] == ')' && text[7] == ' ' && text[8] == '*'
    && text[9] == ' ' && text[10] == '5'
  }

  const BracketStates: seq<State> :=
    [State(0, []), State(1, []), State(2, []), State(4, []), State(6, []), State(7, []), State(9, []), State(11, [])]

  const BracketToks: seq<Token> := [OpenTok, NumTok("2"), PlusTok, VarTok('x'), CloseTok, MulToken, NumTok("5")]

  lemma BracketFront(text: string)
    requires BracketChars(text)
    ensures forall k :: 0 <= k < 4 ==> Delivers(text, BracketStates, BracketToks, k)
  {
    forall k | 0 <= k < 4 ensures Delivers(text, BracketStates, BracketToks, k) {
      if k == 0 {
        OpenCall(text, 0);
      } else if k == 1 {
        DigitCall(text, 1);
      } else if k == 2 {
        BracketPlus(text);
      } else {
        BracketX(text);
      }
    }
  }

  lemma BracketPlus(text: string)
    requires BracketChars(text)
    ensures Delivers(text, BracketStates, BracketToks, 2)
  {
    SpaceCall(text, 2);
    GlyphCall(text, 3, Plus);
  }

  lemma BracketX(text: string)
    requires BracketChars(text)
    ensures Delivers(text, BracketStates, BracketToks, 3)
  {
    SpaceCall(text, 4);
    XCall(text, 5);
  }

  lemma BracketBack(text: string)
    requires BracketChars(text)
    ensures forall k :: 4 <= k < 7 ==> Delivers(text, BracketStates, BracketToks, k)
  {
    MulTokenWellFormed();
    forall k | 4 <= k < 7 ensures Delivers(text, BracketStates, BracketToks, k) {
      if k == 4 {
        assert CloseStep(text, 6) == (CloseTok, State(7, []));
        CloseCall(text, 6);
      } else if k == 5 {
        SpaceCall(text, 7);
        GlyphCall(text, 8, Mul);
      } else {
        SpaceCall(text, 9);
        DigitCall(text, 10);
      }
    }
  }

  lemma BracketDrain(text: string)
    requires text == "(2 + x) * 5"
    ensures Drain(text, Start) == Stream(BracketToks + [EofToken], None)
  {
    BracketFront(text);
    BracketBack(text);
    DrainSteps(text, BracketStates, BracketToks);
  }

  /** `(2 + x) * 5` is OPERBRACKET, NUMBER 2, PLUS, VARIABLE x, CLOSEBRACKET, MUL, NUMBER 5, EOF. */
  lemma Bracket()
    ensures Tokenize("(2 + x) * 5")
            == Stream([OpenTok, NumTok("2"), PlusTok, VarTok('x'), CloseTok, MulToken, NumTok("5"), EofToken], None)
  {
    BracketDrain("(2 + x) * 5");
  }

  // ---------------------------------------------------------------------------------
  // `3 + x`, and `3   + x` through the whitespace lemma.

  const SumToks: seq<Token> := [NumTok("3"), PlusTok, VarTok('x'), EofToken]

  lemma SumFrom3()
    ensures Drain("3 + x", State(3, [])) == Stream([VarTok('x'), EofToken], None)
  {
    var t := "3 + x";
    SpaceCall(t, 3);
    XCall(t, 4);
    DrainEnd(t);
    DrainStep(t, State(3, []), VarTok('x'), State(5, []));
  }

  lemma SumCall1()
    ensures Next("3 + x", State(1, [])) == Ok((PlusTok, State(3, [])))
  {
    SpaceCall("3 + x", 1);
    GlyphCall("3 + x", 2, Plus);
  }

  lemma SumFrom1()
    ensures Drain("3 + x", State(1, [])) == Stream([PlusTok, VarTok('x'), EofToken], None)
  {
    SumCall1();
    SumFrom3();
    DrainStep("3 + x", State(1, []), PlusTok, State(3, []));
  }

  /** `3 + x` is NUMBER 3, PLUS, VARIABLE x, EOF. */
  lemma Sum()
    ensures Tokenize("3 + x") == Stream(SumToks, None)
  {
    var t := "3 + x";
    DigitCall(t, 0);
    SumFrom1();
    DrainStep(t, Start, NumTok("3"), State(1, []));
  }

  /** `3   + x` and `3 + x` give the same stream. */
  lemma WideSum()
    ensures Tokenize("3   + x") == Tokenize("3 + x") == Stream(SumToks, None)
  {
    assert "3" + "   " + "+ x" == "3   + x";
    assert "3" + " " + "+ x" == "3 + x";
    LexerWords.WhiteSpaceWidth("3", "   ", " ", "+ x");
    Sum();
  }
}
