/** Whitespace only separates: the lexer's tokens depend on the whitespace-separated words
    of the text, and not on how much whitespace lies between them, so `3   + x` and
    `3 + x` give the same stream. */
module LexerWords {

  import opened Results
  import opened Tokens
  import opened Lexer
  import opened LexerFacts

  // ---------------------------------------------------------------------------------
  // Words.

  /** Position `p` ends a word: the end of the text, or a whitespace character. */
  predicate Stop(t: string, p: nat)
    requires p <= |t|
  {
    p == |t| || IsWhiteSpace(t[p])
  }

  /** The end of the word that starts at `p`. */
  function WordEnd(t: string, p: nat): (r: nat)
    requires p <= |t|
    ensures p <= r <= |t| && Stop(t, r)
    ensures forall k :: p <= k < r ==> !IsWhiteSpace(t[k])
    ensures !Stop(t, p) ==> p < r
    decreases |t| - p
  {
    if Stop(t, p) then p else WordEnd(t, p + 1)
  }

  /** The word at `p1` of `t1` and the word at `p2` of `t2` are the same characters. */
  predicate Agree(t1: string, p1: nat, t2: string, p2: nat)
    requires p1 <= |t1| && p2 <= |t2|
    decreases |t1| - p1
  {
    if Stop(t1, p1) then Stop(t2, p2)
    else !Stop(t2, p2) && t1[p1] == t2[p2] && Agree(t1, p1 + 1, t2, p2 + 1)
  }

  /** From `p1` of `t1` and from `p2` of `t2` follow the same words in the same order. */
  predicate SameWords(t1: string, p1: nat, t2: string, p2: nat)
    requires p1 <= |t1| && p2 <= |t2|
    decreases |t1| - p1
  {
    var q1, q2 := SkipWhiteSpace(t1, p1), SkipWhiteSpace(t2, p2);
    && (q1 == |t1| <==> q2 == |t2|)
    && (q1 < |t1| && q2 < |t2| ==> Agree(t1, q1, t2, q2) && SameWords(t1, WordEnd(t1, q1), t2, WordEnd(t2, q2)))
  }

  // ---------------------------------------------------------------------------------
  // Facts about words.

  /** Inside a word, the two texts agree character by character, and the rest of the
      words agree too. */
  lemma {:induction false} AgreeAt(t1: string, p1: nat, t2: string, p2: nat, j: nat)
    requires p1 + j <= |t1| && p2 <= |t2| && Agree(t1, p1, t2, p2)
    requires forall k :: p1 <= k < p1 + j ==> !IsWhiteSpace(t1[k])
    ensures p2 + j <= |t2| && Agree(t1, p1 + j, t2, p2 + j)
    ensures t1[p1..p1 + j] == t2[p2..p2 + j]
    ensures forall k :: p2 <= k < p2 + j ==> !IsWhiteSpace(t2[k])
    decreases j
  {
    if j > 0 {
      AgreeAt(t1, p1 + 1, t2, p2 + 1, j - 1);
      assert t1[p1..p1 + j] == [t1[p1]] + t1[p1 + 1..p1 + j];
      assert t2[p2..p2 + j] == [t2[p2]] + t2[p2 + 1..p2 + j];
    }
  }

  /** Every position of a word ends at the same place. */
  lemma {:induction false} WordEndWithin(t: string, q: nat, p: nat)
    requires q <= |t| && q <= p <= WordEnd(t, q)
    ensures WordEnd(t, p) == WordEnd(t, q)
    decreases p - q
  {
    if q < p {
      WordEndWithin(t, q + 1, p);
    }
  }

  /** A word ends at its first stop. */
  lemma {:induction false} WordEndAt(t: string, q: nat, e: nat)
    requires q <= e <= |t| && forall k :: q <= k < e ==> !IsWhiteSpace(t[k])
    ensures e <= WordEnd(t, q)
    ensures Stop(t, e) ==> WordEnd(t, q) == e
    decreases e - q
  {
    if q < e {
      WordEndAt(t, q + 1, e);
    }
  }

  /** Skipping whitespace changes nothing about the words that follow. */
  lemma SameWordsSkip(t1: string, p1: nat, t2: string, p2: nat)
    requires p1 <= |t1| && p2 <= |t2|
    ensures SameWords(t1, p1, t2, p2) <==> SameWords(t1, SkipWhiteSpace(t1, p1), t2, SkipWhiteSpace(t2, p2))
  {
    SkipIdempotent(t1, p1);
    SkipIdempotent(t2, p2);
  }

  /** A position inside a word that agrees is followed by the same words. */
  lemma InsideWord(t1: string, q1: nat, t2: string, q2: nat, j: nat)
    requires q1 < |t1| && q2 < |t2| && !IsWhiteSpace(t1[q1]) && Agree(t1, q1, t2, q2)
    requires SameWords(t1, WordEnd(t1, q1), t2, WordEnd(t2, q2))
    requires q1 + j <= WordEnd(t1, q1)
    ensures q2 + j <= |t2| && SameWords(t1, q1 + j, t2, q2 + j)
  {
    AgreeAt(t1, q1, t2, q2, j);
    WordEndAt(t2, q2, q2 + j);
    if q1 + j == WordEnd(t1, q1) {
      AtWordEnd(t1, q1, t2, q2, j);
    } else {
      BeforeWordEnd(t1, q1, t2, q2, j);
    }
  }

  lemma BeforeWordEnd(t1: string, q1: nat, t2: string, q2: nat, j: nat)
    requires q1 <= |t1| && q2 <= |t2| && q1 + j < WordEnd(t1, q1) && q2 + j <= WordEnd(t2, q2)
    requires Agree(t1, q1 + j, t2, q2 + j)
    requires SameWords(t1, WordEnd(t1, q1), t2, WordEnd(t2, q2))
    ensures SameWords(t1, q1 + j, t2, q2 + j)
  {
    WordEndWithin(t1, q1, q1 + j);
    WordEndWithin(t2, q2, q2 + j);
    MidWord(t1, q1 + j, t2, q2 + j);
  }

  lemma AtWordEnd(t1: string, q1: nat, t2: string, q2: nat, j: nat)
    requires q1 <= |t1| && q2 <= |t2| && q1 + j == WordEnd(t1, q1) && q2 + j <= |t2| && Agree(t1, q1 + j, t2, q2 + j)
    requires q2 + j <= WordEnd(t2, q2)
    ensures WordEnd(t2, q2) == q2 + j
  {
    assert Stop(t1, q1 + j);
    WordEndAt(t2, q2, q2 + j);
  }

  /** Inside a word, the words that follow are those of the word's end. */
  lemma MidWord(t1: string, p1: nat, t2: string, p2: nat)
    requires p1 < |t1| && p2 <= |t2| && !IsWhiteSpace(t1[p1]) && Agree(t1, p1, t2, p2)
    requires SameWords(t1, WordEnd(t1, p1), t2, WordEnd(t2, p2))
    ensures SameWords(t1, p1, t2, p2)
  {
    assert SkipWhiteSpace(t1, p1) == p1;
    assert SkipWhiteSpace(t2, p2) == p2;
  }

  // ---------------------------------------------------------------------------------
  // The scanners read one word.

  /** Two scans that end, or fail, at the same distance from where they were. */
  predicate Shifted(r1: Result<nat, LexError>, p1: nat, r2: Result<nat, LexError>, p2: nat) {
    && r1.Ok? == r2.Ok?
    && (r1.Ok? ==> r1.value - p1 == r2.value - p2)
    && (r1.Err? ==> r1.error.pos - p1 == r2.error.pos - p2)
  }

  /** `number` without the bookkeeping of its start: the same walk over digits and dots. */
  function RunScan(t: string, p: nat, seen: bool): Result<nat, LexError>
    requires p <= |t|
    decreases |t| - p
  {
    if p < |t| && IsNumeralChar(t[p]) then
      if t[p] == '.' && seen then Err(MultipleDots(p)) else RunScan(t, p + 1, seen || t[p] == '.')
    else
      Ok(p)
  }

  lemma {:induction false} ScanIsRunScan(t: string, s: nat, p: nat, seen: bool)
    requires s <= p <= |t| && (forall k :: s <= k < p ==> IsNumeralChar(t[k]))
    requires DotCount(t[s..p]) == if seen then 1 else 0
    ensures ScanNumber(t, s, p, seen) == RunScan(t, p, seen)
    decreases |t| - p
  {
    if p < |t| && IsNumeralChar(t[p]) && !(t[p] == '.' && seen) {
      ScanGoesOn(t, s, p, seen);
      ScanIsRunScan(t, s, p + 1, seen || t[p] == '.');
    }
  }

  lemma {:induction false} RunScanAgree(t1: string, p1: nat, t2: string, p2: nat, seen: bool)
    requires p1 <= |t1| && p2 <= |t2| && Agree(t1, p1, t2, p2)
    ensures Shifted(RunScan(t1, p1, seen), p1, RunScan(t2, p2, seen), p2)
    decreases |t1| - p1
  {
    if p1 < |t1| && IsNumeralChar(t1[p1]) {
      assert t2[p2] == t1[p1];
      if !(t1[p1] == '.' && seen) {
        RunScanAgree(t1, p1 + 1, t2, p2 + 1, seen || t1[p1] == '.');
      }
    } else if Stop(t1, p1) {
      assert Stop(t2, p2);
    } else {
      assert t2[p2] == t1[p1];
    }
  }

  lemma ScanNumberAgree(t1: string, s1: nat, p1: nat, t2: string, s2: nat, p2: nat, seen: bool)
    requires s1 <= p1 <= |t1| && (forall k :: s1 <= k < p1 ==> IsNumeralChar(t1[k]))
    requires DotCount(t1[s1..p1]) == if seen then 1 else 0
    requires s2 <= p2 <= |t2| && (forall k :: s2 <= k < p2 ==> IsNumeralChar(t2[k]))
    requires DotCount(t2[s2..p2]) == if seen then 1 else 0
    requires Agree(t1, p1, t2, p2)
    ensures Shifted(ScanNumber(t1, s1, p1, seen), p1, ScanNumber(t2, s2, p2, seen), p2)
  {
    ScanIsRunScan(t1, s1, p1, seen);
    ScanIsRunScan(t2, s2, p2, seen);
    RunScanAgree(t1, p1, t2, p2, seen);
  }

  /** The scan takes the character at `p` and goes on. */
  lemma ScanGoesOn(t: string, s: nat, p: nat, seen: bool)
    requires s <= p < |t| && (forall k :: s <= k < p ==> IsNumeralChar(t[k]))
    requires DotCount(t[s..p]) == if seen then 1 else 0
    requires IsNumeralChar(t[p]) && !(t[p] == '.' && seen)
    ensures forall k :: s <= k < p + 1 ==> IsNumeralChar(t[k])
    ensures DotCount(t[s..p + 1]) == if seen || t[p] == '.' then 1 else 0
    ensures ScanNumber(t, s, p, seen) == ScanNumber(t, s, p + 1, seen || t[p] == '.')
  {
    DotCountStep(t, s, p, seen);
  }

  lemma {:induction false} LetterRunAgree(t1: string, p1: nat, t2: string, p2: nat)
    requires p1 <= |t1| && p2 <= |t2| && Agree(t1, p1, t2, p2)
    ensures LetterRunEnd(t1, p1) - p1 == LetterRunEnd(t2, p2) - p2
    decreases |t1| - p1
  {
    if !Stop(t1, p1) && IsLetter(t1[p1]) {
      LetterRunAgree(t1, p1 + 1, t2, p2 + 1);
    }
  }

  // ---------------------------------------------------------------------------------
  // One call of `getNextToken`.

  /** Two failures of the same kind, at the same character. */
  predicate SameFault(e1: LexError, e2: LexError) {
    match e1
    case MultipleDots(_) => e2.MultipleDots?
    case UnknownCharacter(c, _) => e2.UnknownCharacter? && e2.c == c
  }

  /** Two results of `Next` that agree: the same token and buffer, with the scan positions
      followed by the same words; or failures of the same kind. */
  predicate StepsAgree(t1: string, r1: Result<(Token, State), LexError>, t2: string, r2: Result<(Token, State), LexError>) {
    if r1.Ok? then
      && r2.Ok? && r1.value.0 == r2.value.0 && r1.value.1.buffer == r2.value.1.buffer
      && r1.value.1.pos <= |t1| && r2.value.1.pos <= |t2|
      && SameWords(t1, r1.value.1.pos, t2, r2.value.1.pos)
    else
      r2.Err? && SameFault(r1.error, r2.error)
  }

  /** What the lookahead after a token sees is the same in both texts: a character of the
      word, or in both a stop, which no lookahead accepts. */
  lemma LookAhead(t1: string, p1: nat, t2: string, p2: nat)
    requires p1 <= |t1| && p2 <= |t2| && Agree(t1, p1, t2, p2)
    ensures p1 < |t1| && IsLetter(t1[p1]) <==> p2 < |t2| && IsLetter(t2[p2])
    ensures p1 < |t1| && IsDigit(t1[p1]) <==> p2 < |t2| && IsDigit(t2[p2])
    ensures p1 < |t1| && t1[p1] == '(' <==> p2 < |t2| && t2[p2] == '('
  {
  }

  lemma NumberAgree(t1: string, q1: nat, t2: string, q2: nat)
    requires q1 < |t1| && q2 < |t2| && IsDigit(t1[q1]) && Agree(t1, q1, t2, q2)
    requires SameWords(t1, WordEnd(t1, q1), t2, WordEnd(t2, q2))
    ensures IsDigit(t2[q2]) && StepsAgree(t1, NumberStep(t1, q1), t2, NumberStep(t2, q2))
  {
    ScanStartAgree(t1, q1, t2, q2);
    NumberStepScans(t1, q1);
    NumberStepScans(t2, q2);
    NumberScansAgree(t1, q1, t2, q2);
  }

  lemma NumberScansAgree(t1: string, q1: nat, t2: string, q2: nat)
    requires q1 < |t1| && q2 < |t2| && IsDigit(t1[q1]) && Agree(t1, q1, t2, q2)
    requires SameWords(t1, WordEnd(t1, q1), t2, WordEnd(t2, q2))
    ensures IsDigit(t2[q2])
    ensures StepsAgree(t1, ScannedNumber(t1, q1), t2, ScannedNumber(t2, q2))
  {
    ScanStartAgree(t1, q1, t2, q2);
    var r1, r2 := ScanNumber(t1, q1, q1, false), ScanNumber(t2, q2, q2, false);
    if r1.Ok? {
      RunAgree(t1, q1, r1.value, t2, q2, r2.value);
    }
  }

  /** The NUMBER branch, in terms of the scan. */
  function ScannedNumber(t: string, q: nat): Result<(Token, State), LexError>
    requires q < |t| && IsDigit(t[q])
  {
    assert t[q..q] == [];
    match ScanNumber(t, q, q, false)
    case Err(e) => Err(e)
    case Ok(e) =>
      Ok((Token(Number, NumberValue(t[q..e])), State(e, if e < |t| && (IsLetter(t[e]) || t[e] == '(') then [MulToken] else [])))
  }

  lemma ScanStartAgree(t1: string, q1: nat, t2: string, q2: nat)
    requires q1 < |t1| && q2 < |t2| && IsDigit(t1[q1]) && Agree(t1, q1, t2, q2)
    ensures t2[q2] == t1[q1] && t1[q1..q1] == [] && t2[q2..q2] == []
    ensures Shifted(ScanNumber(t1, q1, q1, false), q1, ScanNumber(t2, q2, q2, false), q2)
  {
    assert t1[q1..q1] == [] && t2[q2..q2] == [];
    ScanNumberAgree(t1, q1, q1, t2, q2, q2, false);
  }

  /** A run of the same length inside agreeing words: the same characters, the same
      lookahead after it, and the same words from its end on. */
  lemma RunAgree(t1: string, q1: nat, e1: nat, t2: string, q2: nat, e2: nat)
    requires q1 < |t1| && q2 < |t2| && !IsWhiteSpace(t1[q1]) && Agree(t1, q1, t2, q2)
    requires SameWords(t1, WordEnd(t1, q1), t2, WordEnd(t2, q2))
    requires q1 <= e1 <= |t1| && e2 - q2 == e1 - q1 && forall k :: q1 <= k < e1 ==> !IsWhiteSpace(t1[k])
    ensures e2 <= |t2| && t1[q1..e1] == t2[q2..e2] && SameWords(t1, e1, t2, e2)
    ensures e1 < |t1| && IsLetter(t1[e1]) <==> e2 < |t2| && IsLetter(t2[e2])
    ensures e1 < |t1| && IsDigit(t1[e1]) <==> e2 < |t2| && IsDigit(t2[e2])
    ensures e1 < |t1| && t1[e1] == '(' <==> e2 < |t2| && t2[e2] == '('
  {
    var j := e1 - q1;
    assert q1 + j == e1 && q2 + j == e2;
    AgreeAt(t1, q1, t2, q2, j);
    LookAhead(t1, e1, t2, e2);
    WordEndAt(t1, q1, e1);
    InsideWord(t1, q1, t2, q2, j);
  }

  lemma NumberStepScans(t: string, q: nat)
    requires q < |t| && IsDigit(t[q])
    ensures NumberStep(t, q) == ScannedNumber(t, q)
  {
    assert t[q..q] == [];
  }

  lemma SymbolAgree(t1: string, q1: nat, t2: string, q2: nat)
    requires q1 < |t1| && q2 < |t2| && IsLetter(t1[q1]) && Agree(t1, q1, t2, q2)
    requires SameWords(t1, WordEnd(t1, q1), t2, WordEnd(t2, q2))
    ensures IsLetter(t2[q2]) && StepsAgree(t1, Ok(SymbolStep(t1, q1)), t2, Ok(SymbolStep(t2, q2)))
  {
    assert t2[q2] == t1[q1];
    LetterRunAgree(t1, q1, t2, q2);
    var j := LetterRunEnd(t1, q1) - q1;
    AgreeAt(t1, q1, t2, q2, j);
    WordEndAt(t1, q1, q1 + j);
    InsideWord(t1, q1, t2, q2, j);
  }

  lemma CloseAgree(t1: string, q1: nat, t2: string, q2: nat)
    requires q1 < |t1| && q2 < |t2| && t1[q1] == ')' && Agree(t1, q1, t2, q2)
    requires SameWords(t1, WordEnd(t1, q1), t2, WordEnd(t2, q2))
    ensures t2[q2] == ')' && StepsAgree(t1, Ok(CloseStep(t1, q1)), t2, Ok(CloseStep(t2, q2)))
  {
    AgreeAt(t1, q1, t2, q2, 1);
    LookAhead(t1, q1 + 1, t2, q2 + 1);
    WordEndAt(t1, q1, q1 + 1);
    InsideWord(t1, q1, t2, q2, 1);
  }

  /** A scan from the start of a word. */
  lemma WordStepAgree(t1: string, q1: nat, t2: string, q2: nat)
    requires q1 < |t1| && q2 < |t2| && !IsWhiteSpace(t1[q1]) && Agree(t1, q1, t2, q2)
    requires SameWords(t1, WordEnd(t1, q1), t2, WordEnd(t2, q2))
    ensures StepsAgree(t1, Next(t1, State(q1, [])), t2, Next(t2, State(q2, [])))
  {
    assert t2[q2] == t1[q1];
    assert SkipWhiteSpace(t1, q1) == q1 && SkipWhiteSpace(t2, q2) == q2;
    var c := t1[q1];
    if IsDigit(c) {
      NumberAgree(t1, q1, t2, q2);
    } else if IsLetter(c) {
      SymbolAgree(t1, q1, t2, q2);
    } else if c == ')' {
      CloseAgree(t1, q1, t2, q2);
    } else {
      GlyphAgree(t1, q1, t2, q2);
      NextAtGlyph(t1, q1);
      NextAtGlyph(t2, q2);
    }
  }

  /** A one-character token, or a character no token starts with. */
  lemma GlyphAgree(t1: string, q1: nat, t2: string, q2: nat)
    requires q1 < |t1| && q2 < |t2| && !IsWhiteSpace(t1[q1]) && Agree(t1, q1, t2, q2)
    requires SameWords(t1, WordEnd(t1, q1), t2, WordEnd(t2, q2))
    ensures t2[q2] == t1[q1]
    ensures StepsAgree(t1, GlyphResult(t1, q1), t2, GlyphResult(t2, q2))
  {
    var c := t1[q1];
    assert t2[q2] == c;
    match GlyphKind(c)
    case Some(k) =>
      assert GlyphResult(t1, q1) == Ok((Token(k, Text([c])), State(q1 + 1, [])));
      assert GlyphResult(t2, q2) == Ok((Token(k, Text([c])), State(q2 + 1, [])));
      WordEndAt(t1, q1, q1 + 1);
      InsideWord(t1, q1, t2, q2, 1);
    case None =>
  }

  lemma NextAtGlyph(t: string, q: nat)
    requires q < |t| && !IsWhiteSpace(t[q]) && !IsDigit(t[q]) && !IsLetter(t[q]) && t[q] != ')'
    ensures Next(t, State(q, [])) == GlyphResult(t, q)
  {
    assert SkipWhiteSpace(t, q) == q;
  }

  /** The last branches of `getNextToken`, at a character that is neither a digit, a
      letter nor `)`. */
  function GlyphResult(t: string, q: nat): Result<(Token, State), LexError>
    requires q < |t|
  {
    match GlyphKind(t[q])
    case Some(k) => Ok((Token(k, Text([t[q]])), State(q + 1, [])))
    case None => Err(UnknownCharacter(t[q], q))
  }

  /** One call of `getNextToken` on two texts whose remaining words are the same. */
  lemma NextAgree(t1: string, s1: State, t2: string, s2: State)
    requires Valid(t1, s1) && Valid(t2, s2) && s1.buffer == s2.buffer
    requires SameWords(t1, s1.pos, t2, s2.pos)
    ensures StepsAgree(t1, Next(t1, s1), t2, Next(t2, s2))
  {
    if s1.buffer == [] {
      var q1, q2 := SkipWhiteSpace(t1, s1.pos), SkipWhiteSpace(t2, s2.pos);
      WhiteSpaceSkipped(t1, s1.pos);
      WhiteSpaceSkipped(t2, s2.pos);
      if q1 < |t1| {
        WordStepAgree(t1, q1, t2, q2);
      }
    }
  }

  // ---------------------------------------------------------------------------------
  // The whole stream.

  /** Two streams with the same tokens, and failures of the same kind if any. */
  predicate StreamsAgree(a: Stream, b: Stream) {
    && a.toks == b.toks
    && a.fault.Some? == b.fault.Some?
    && (a.fault.Some? && b.fault.Some? ==> SameFault(a.fault.value, b.fault.value))
  }

  /** Lexing two texts from positions followed by the same words gives the same tokens. */
  lemma {:induction false} DrainAgree(t1: string, s1: State, t2: string, s2: State)
    requires Valid(t1, s1) && Valid(t2, s2) && s1.buffer == s2.buffer
    requires SameWords(t1, s1.pos, t2, s2.pos)
    ensures StreamsAgree(Drain(t1, s1), Drain(t2, s2))
    decreases Measure(t1, s1)
  {
    NextAgree(t1, s1, t2, s2);
    var r1, r2 := Next(t1, s1), Next(t2, s2);
    if r1.Ok? && r1.value.0.kind != Eof {
      DrainAgree(t1, r1.value.1, t2, r2.value.1);
    }
  }

  // ---------------------------------------------------------------------------------
  // Texts with the same words.

  /** A non-empty run of whitespace. */
  predicate Blank(w: string) {
    |w| > 0 && forall k :: 0 <= k < |w| ==> IsWhiteSpace(w[k])
  }

  /** Whitespace is skipped as a whole. */
  lemma {:induction false} SkipThrough(t: string, p: nat, e: nat)
    requires p <= e <= |t| && forall k :: p <= k < e ==> IsWhiteSpace(t[k])
    ensures SkipWhiteSpace(t, p) == SkipWhiteSpace(t, e)
    decreases e - p
  {
    if p < e {
      SkipThrough(t, p + 1, e);
    }
  }

  /** Texts that go on the same way: whitespace and words at the same offsets. */
  lemma {:induction false} SkipShift(t1: string, p1: nat, t2: string, p2: nat)
    requires p1 <= |t1| && p2 <= |t2| && t1[p1..] == t2[p2..]
    ensures SkipWhiteSpace(t1, p1) - p1 == SkipWhiteSpace(t2, p2) - p2
    decreases |t1| - p1
  {
    if p1 < |t1| {
      SuffixShift(t1, p1, t2, p2, 1);
      SkipShift(t1, p1 + 1, t2, p2 + 1);
    }
  }

  lemma {:induction false} AgreeShift(t1: string, p1: nat, t2: string, p2: nat)
    requires p1 <= |t1| && p2 <= |t2| && t1[p1..] == t2[p2..]
    ensures Agree(t1, p1, t2, p2) && WordEnd(t1, p1) - p1 == WordEnd(t2, p2) - p2
    decreases |t1| - p1
  {
    if p1 < |t1| {
      SuffixShift(t1, p1, t2, p2, 1);
      AgreeShift(t1, p1 + 1, t2, p2 + 1);
    }
  }

  /** The same rest of text has the same words. */
  lemma {:induction false} SameSuffix(t1: string, p1: nat, t2: string, p2: nat)
    requires p1 <= |t1| && p2 <= |t2| && t1[p1..] == t2[p2..]
    ensures SameWords(t1, p1, t2, p2)
    decreases |t1| - p1
  {
    SkipShift(t1, p1, t2, p2);
    var q1, q2 := SkipWhiteSpace(t1, p1), SkipWhiteSpace(t2, p2);
    SuffixShift(t1, p1, t2, p2, q1 - p1);
    if q1 < |t1| {
      AgreeShift(t1, q1, t2, q2);
      var e1, e2 := WordEnd(t1, q1), WordEnd(t2, q2);
      SuffixShift(t1, q1, t2, q2, e1 - q1);
      SameSuffix(t1, e1, t2, e2);
      SameWordsStep(t1, p1, t2, p2);
    }
  }

  /** Equal rests of text stay equal, and agree character by character. */
  lemma SuffixShift(t1: string, p1: nat, t2: string, p2: nat, d: nat)
    requires p1 <= |t1| && p2 <= |t2| && t1[p1..] == t2[p2..] && p1 + d <= |t1|
    ensures p2 + d <= |t2| && t1[p1 + d..] == t2[p2 + d..]
    ensures p1 + d < |t1| ==> t1[p1 + d] == t2[p2 + d]
  {
    assert t1[p1 + d..] == t1[p1..][d..] && t2[p2 + d..] == t2[p2..][d..];
    if p1 + d < |t1| {
      assert t1[p1 + d] == t1[p1..][d] && t2[p2 + d] == t2[p2..][d];
    }
  }

  /** Where whitespace is skipped in the common prefix `a` of `a + w1 + b` and `a + w2 + b`. */
  lemma {:induction false} SkipPrefix(a: string, w1: string, w2: string, b: string, p: nat)
    requires p <= |a| && Blank(w1) && Blank(w2)
    ensures var q1, q2 := SkipWhiteSpace(a + w1 + b, p), SkipWhiteSpace(a + w2 + b, p);
            && (q1 < |a| <==> q2 < |a|)
            && (q1 < |a| ==> q1 == q2)
            && (q1 >= |a| ==> q1 == SkipWhiteSpace(a + w1 + b, |a| + |w1|)
                                && q2 == SkipWhiteSpace(a + w2 + b, |a| + |w2|))
    decreases |a| - p
  {
    var t1, t2 := a + w1 + b, a + w2 + b;
    if p == |a| {
      SkipThrough(t1, |a|, |a| + |w1|);
      SkipThrough(t2, |a|, |a| + |w2|);
    } else {
      assert t1[p] == a[p] && t2[p] == a[p];
      SkipPrefix(a, w1, w2, b, p + 1);
    }
  }

  /** A word inside the common prefix. */
  lemma {:induction false} AgreePrefix(a: string, w1: string, w2: string, b: string, q: nat)
    requires q <= |a| && Blank(w1) && Blank(w2)
    ensures Agree(a + w1 + b, q, a + w2 + b, q)
    ensures WordEnd(a + w1 + b, q) == WordEnd(a + w2 + b, q) <= |a|
    decreases |a| - q
  {
    var t1, t2 := a + w1 + b, a + w2 + b;
    if q == |a| {
      assert t1[q] == w1[0] && t2[q] == w2[0];
    } else {
      assert t1[q] == a[q] && t2[q] == a[q];
      AgreePrefix(a, w1, w2, b, q + 1);
    }
  }

  /** Texts that differ only in the width of one whitespace run have the same words. */
  lemma {:induction false} SamePrefix(a: string, w1: string, w2: string, b: string, p: nat)
    requires p <= |a| && Blank(w1) && Blank(w2)
    ensures SameWords(a + w1 + b, p, a + w2 + b, p)
    decreases |a| - p
  {
    var t1, t2 := a + w1 + b, a + w2 + b;
    SkipPrefix(a, w1, w2, b, p);
    var q := SkipWhiteSpace(t1, p);
    if q < |a| {
      AgreePrefix(a, w1, w2, b, q);
      SamePrefix(a, w1, w2, b, WordEnd(t1, q));
      SameWordsStep(t1, p, t2, p);
    } else {
      SameAfterPrefix(a, w1, w2, b, p);
    }
  }

  /** From a position whose whitespace reaches past the prefix, both texts go on with `b`. */
  lemma SameAfterPrefix(a: string, w1: string, w2: string, b: string, p: nat)
    requires p <= |a| && Blank(w1) && Blank(w2)
    requires SkipWhiteSpace(a + w1 + b, p) == SkipWhiteSpace(a + w1 + b, |a| + |w1|)
    requires SkipWhiteSpace(a + w2 + b, p) == SkipWhiteSpace(a + w2 + b, |a| + |w2|)
    ensures SameWords(a + w1 + b, p, a + w2 + b, p)
  {
    JoinSuffix(a, w1, b);
    JoinSuffix(a, w2, b);
    SameAfterSkip(a + w1 + b, p, |a| + |w1|, a + w2 + b, p, |a| + |w2|);
  }

  /** The words from a position are its first word and the words after it. */
  lemma SameWordsStep(t1: string, p1: nat, t2: string, p2: nat)
    requires p1 <= |t1| && p2 <= |t2|
    requires SkipWhiteSpace(t1, p1) < |t1| && SkipWhiteSpace(t2, p2) < |t2|
    requires Agree(t1, SkipWhiteSpace(t1, p1), t2, SkipWhiteSpace(t2, p2))
    requires SameWords(t1, WordEnd(t1, SkipWhiteSpace(t1, p1)), t2, WordEnd(t2, SkipWhiteSpace(t2, p2)))
    ensures SameWords(t1, p1, t2, p2)
  {
  }

  /** From positions whose whitespace reaches the same rest of text, the words are the same. */
  lemma SameAfterSkip(t1: string, p1: nat, e1: nat, t2: string, p2: nat, e2: nat)
    requires p1 <= e1 <= |t1| && p2 <= e2 <= |t2| && t1[e1..] == t2[e2..]
    requires SkipWhiteSpace(t1, p1) == SkipWhiteSpace(t1, e1)
    requires SkipWhiteSpace(t2, p2) == SkipWhiteSpace(t2, e2)
    ensures SameWords(t1, p1, t2, p2)
  {
    SameSuffix(t1, e1, t2, e2);
    SameWordsSkip(t1, p1, t2, p2);
    SameWordsSkip(t1, e1, t2, e2);
  }

  lemma JoinSuffix(a: string, w: string, b: string)
    ensures (a + w + b)[|a| + |w|..] == b
  {
  }

  /** Whitespace only separates: widening or narrowing one run of whitespace changes
      neither the tokens nor the kind of failure. */
  lemma WhiteSpaceWidth(a: string, w1: string, w2: string, b: string)
    requires Blank(w1) && Blank(w2)
    ensures StreamsAgree(Tokenize(a + w1 + b), Tokenize(a + w2 + b))
  {
    SamePrefix(a, w1, w2, b, 0);
    DrainAgree(a + w1 + b, Start, a + w2 + b, Start);
  }
}
