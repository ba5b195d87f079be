/** Properties of the lexer: what a caller pulling tokens receives, how whitespace,
    buffered tokens and end of input behave, how letter runs are segmented, and the
    streams of the examples the source documents. */
module LexerFacts {

  import opened Results
  import opened Tokens
  import opened Lexer

  // ---------------------------------------------------------------------------------
  // The drained stream is exactly what successive calls of `getNextToken` return.

  /** The `n`-th token of the stream is what the `n`-th call returns. */
  lemma {:induction false} DrainDelivers(text: string, st: State, n: nat)
    requires Valid(text, st) && n < |Drain(text, st).toks|
    ensures Pull(text, st, n).Ok? && Pull(text, st, n).value.0 == Drain(text, st).toks[n]
    decreases n
  {
    var (t, st') := Next(text, st).value;
    if n > 0 {
      assert Pull(text, st, n) == Pull(text, st', n - 1);
      assert Drain(text, st).toks[n] == Drain(text, st').toks[n - 1];
      DrainDelivers(text, st', n - 1);
    } else {
      assert Drain(text, st).toks[0] == t;
    }
  }

  /** A stream that ends in a lexer error ends there because the next call throws it. */
  lemma {:induction false} DrainFails(text: string, st: State)
    requires Valid(text, st) && Drain(text, st).fault.Some?
    ensures Pull(text, st, |Drain(text, st).toks|) == Err(Drain(text, st).fault.value)
    decreases Measure(text, st)
  {
    match Next(text, st)
    case Err(e) =>
    case Ok((t, st')) =>
      DrainFails(text, st');
  }

  // ---------------------------------------------------------------------------------
  // The token buffer and the end of input.

  /** Buffered tokens come out first, in order, without any scanning. */
  lemma {:induction false} BufferFirst(text: string, st: State, n: nat)
    requires Valid(text, st) && n < |st.buffer|
    ensures Pull(text, st, n) == Ok((st.buffer[n], State(st.pos, st.buffer[n + 1..])))
    decreases n
  {
    if n > 0 {
      var st' := State(st.pos, st.buffer[1..]);
      BufferFirst(text, st', n - 1);
      assert st'.buffer[n - 1] == st.buffer[n];
      assert st'.buffer[n..] == st.buffer[n + 1..];
    }
  }

  /** Once the input is used up and nothing is buffered, every call returns EOF. */
  lemma {:induction false} EofForever(text: string, n: nat)
    ensures Pull(text, State(|text|, []), n) == Ok((EofToken, State(|text|, [])))
    decreases n
  {
    if n > 0 {
      EofForever(text, n - 1);
    }
  }

  // ---------------------------------------------------------------------------------
  // Whitespace.

  lemma SkipIdempotent(text: string, pos: nat)
    requires pos <= |text|
    ensures SkipWhiteSpace(text, SkipWhiteSpace(text, pos)) == SkipWhiteSpace(text, pos)
  {
  }

  /** Whitespace before a token is invisible: scanning from it gives what scanning from
      the token's first character gives. */
  lemma WhiteSpaceSkipped(text: string, pos: nat)
    requires pos <= |text|
    ensures Next(text, State(pos, [])) == Next(text, State(SkipWhiteSpace(text, pos), []))
  {
    SkipIdempotent(text, pos);
  }

  // ---------------------------------------------------------------------------------
  // Errors.

  /** A character that starts no token fails the call, at that character. */
  lemma UnknownCharacterFails(text: string, st: State)
    requires Valid(text, st) && st.buffer == []
    requires SkipWhiteSpace(text, st.pos) < |text| && !IsTokenStart(text[SkipWhiteSpace(text, st.pos)])
    ensures var p := SkipWhiteSpace(text, st.pos);
            Next(text, st) == Err(UnknownCharacter(text[p], p))
  {
  }

  // ---------------------------------------------------------------------------------
  // Function names and the segmentation of letter runs.

  /** `b` starts with `a`. */
  predicate IsPrefix(a: string, b: string) {
    |a| <= |b| && b[..|a|] == a
  }

  /** The ten names are lower-case ASCII words, and the only name that begins another is
      `cos`, which begins `cosec` and comes before it. */
  lemma FuncNamesShape()
    ensures |FuncNames| == 10
    ensures forall n :: 0 <= n < |FuncNames| ==> |FuncNames[n]| > 0 && forall c :: c in FuncNames[n] ==> 'a' <= c <= 'z'
    ensures forall a, b :: 0 <= a < |FuncNames| && 0 <= b < |FuncNames| && a != b && IsPrefix(FuncNames[a], FuncNames[b])
              ==> a == 1 && b == 3
    ensures FuncNames[1] == "cos" && FuncNames[3] == "cosec"
  {
    forall a, b | 0 <= a < |FuncNames| && 0 <= b < |FuncNames| && a != b && IsPrefix(FuncNames[a], FuncNames[b])
      ensures a == 1 && b == 3
    {
      var x, y := FuncNames[a], FuncNames[b];
      assert |x| >= 2 && y[0] == x[0] && y[1] == x[1] && (|x| > 2 ==> y[2] == x[2]);
    }
  }

  /** No call of `getNextToken` returns or buffers a FUNC `cosec` token, when none was buffered. */
  lemma NextNoCosec(text: string, st: State)
    requires Valid(text, st) && forall k :: 0 <= k < |st.buffer| ==> st.buffer[k] != CosecToken
    ensures Next(text, st).Ok? ==> && Next(text, st).value.0 != CosecToken
                                   && forall k :: 0 <= k < |Next(text, st).value.1.buffer| ==>
                                        Next(text, st).value.1.buffer[k] != CosecToken
  {
    if st.buffer == [] {
      var p := SkipWhiteSpace(text, st.pos);
      if p < |text| && IsLetter(text[p]) {
        SymbolStepNoCosec(text, p);
      }
    }
  }

  lemma SymbolStepNoCosec(text: string, p: nat)
    requires p < |text| && IsLetter(text[p])
    ensures SymbolStep(text, p).0 != CosecToken
    ensures forall k :: 0 <= k < |SymbolStep(text, p).1.buffer| ==> SymbolStep(text, p).1.buffer[k] != CosecToken
  {
    var (t, st') := SymbolStep(text, p);
    var run := text[p..st'.pos];
    var joined := JoinWithMul(Pieces(run, 0));
    assert [t] + st'.buffer == joined;
    assert t == joined[0];
    forall k | 0 <= k < |st'.buffer| ensures st'.buffer[k] != CosecToken {
      assert st'.buffer[k] == joined[k + 1];
    }
  }

  lemma {:induction false} DrainNoCosec(text: string, st: State)
    requires Valid(text, st) && forall k :: 0 <= k < |st.buffer| ==> st.buffer[k] != CosecToken
    ensures forall k :: 0 <= k < |Drain(text, st).toks| ==> Drain(text, st).toks[k] != CosecToken
    decreases Measure(text, st)
  {
    NextNoCosec(text, st);
    match Next(text, st)
    case Err(_) =>
    case Ok((t, st')) =>
      if t.kind != Eof {
        DrainNoCosec(text, st');
      }
  }

  /** CONSTANT is a kind the lexer never emits. */
  lemma TokenizeNoConstant(text: string)
    ensures forall k :: 0 <= k < |Tokenize(text).toks| ==> Tokenize(text).toks[k].kind != Constant
  {
    var s := Tokenize(text);
    forall k | 0 <= k < |s.toks| ensures s.toks[k].kind != Constant {
      assert WellFormed(s.toks[k]);
    }
  }

  /** `cos` is tried before `cosec`, so the lexer never produces a FUNC `cosec` token and
      the source's `cosec` branches of the evaluator are unreachable from text. */
  lemma TokenizeNoCosec(text: string)
    ensures forall k :: 0 <= k < |Tokenize(text).toks| ==> Tokenize(text).toks[k] != CosecToken
  {
    DrainNoCosec(text, Start);
  }
}
