/** The character scanner of src/Lexer/index.ts. The mutable lexer object
    (position, current character, token buffer) becomes an immutable `State`,
    and `getNextToken` becomes the step function `Next`. */
module Lexer {

  import opened Results
  import opened Tokens

  datatype LexError =
    | MultipleDots(pos: nat)               // a second '.' in one numeric run, at `pos`
    | UnknownCharacter(c: char, pos: nat)  // a character no token starts with

  /** `pos` is the scan position; `buffer` holds tokens already built and not yet delivered. */
  datatype State = State(pos: nat, buffer: seq<Token>)

  const Start: State := State(0, [])

  /** The states the lexer can be in: within the text, buffering only well-formed,
      non-EOF tokens. */
  predicate Valid(text: string, st: State) {
    && st.pos <= |text|
    && forall k :: 0 <= k < |st.buffer| ==> Deliverable(st.buffer[k])
  }

  /** A token that may wait in the buffer. */
  predicate Deliverable(t: Token) {
    WellFormed(t) && t.kind != Eof
  }

  /** Decreases with every non-EOF token delivered: scanning consumes at least one
      character per token it keeps, and a letter run of n characters buffers at most 2n - 2. */
  function Measure(text: string, st: State): nat
    requires st.pos <= |text|
  {
    2 * (|text| - st.pos) + |st.buffer|
  }

  /** `skipWhiteSpace`: the first position at or after `pos` that is not whitespace. */
  function SkipWhiteSpace(text: string, pos: nat): (r: nat)
    requires pos <= |text|
    ensures pos <= r <= |text|
    ensures forall k :: pos <= k < r ==> IsWhiteSpace(text[k])
    ensures r == |text| || !IsWhiteSpace(text[r])
    decreases |text| - pos
  {
    if pos < |text| && IsWhiteSpace(text[pos]) then SkipWhiteSpace(text, pos + 1) else pos
  }

  lemma DotCountSnoc(s: string, c: char)
    ensures DotCount(s + [c]) == DotCount(s) + (if c == '.' then 1 else 0)
  {
    assert (s + [c])[..|s|] == s;
  }

  /** Extending a numeric run by one character that is not a second dot. */
  lemma DotCountStep(text: string, start: nat, pos: nat, seenDot: bool)
    requires start <= pos < |text|
    requires DotCount(text[start..pos]) == if seenDot then 1 else 0
    requires !(text[pos] == '.' && seenDot)
    ensures DotCount(text[start..pos + 1]) == if seenDot || text[pos] == '.' then 1 else 0
  {
    assert text[start..pos + 1] == text[start..pos] + [text[pos]];
    DotCountSnoc(text[start..pos], text[pos]);
  }

  /** `number`: scans the numeric run that starts at `start`; `pos` is the scan position
      and `seenDot` the `hasDecimalPoint` flag. Returns the end of the run, or fails
      at the run's second dot. */
  function ScanNumber(text: string, start: nat, pos: nat, seenDot: bool): (r: Result<nat, LexError>)
    requires start <= pos <= |text|
    requires forall k :: start <= k < pos ==> IsNumeralChar(text[k])
    requires DotCount(text[start..pos]) == if seenDot then 1 else 0
    ensures r.Ok? ==> && pos <= r.value <= |text|
                      && (forall k :: start <= k < r.value ==> IsNumeralChar(text[k]))
                      && (r.value == |text| || !IsNumeralChar(text[r.value]))
                      && DotCount(text[start..r.value]) <= 1
    ensures r.Err? ==> && r.error.MultipleDots?
                       && pos <= r.error.pos < |text|
                       && (forall k :: start <= k < r.error.pos ==> IsNumeralChar(text[k]))
                       && text[r.error.pos] == '.'
                       && DotCount(text[start..r.error.pos]) == 1
    decreases |text| - pos
  {
    if pos < |text| && IsNumeralChar(text[pos]) then
      if text[pos] == '.' && seenDot then
        Err(MultipleDots(pos))
      else
        DotCountStep(text, start, pos, seenDot);
        ScanNumber(text, start, pos + 1, seenDot || text[pos] == '.')
    else
      Ok(pos)
  }

  /** The end of the maximal run of ASCII letters starting at `pos` (the first loop of `symbol`). */
  function LetterRunEnd(text: string, pos: nat): (r: nat)
    requires pos <= |text|
    ensures pos <= r <= |text|
    ensures forall k :: pos <= k < r ==> IsLetter(text[k])
    ensures r == |text| || !IsLetter(text[r])
    decreases |text| - pos
  {
    if pos < |text| && IsLetter(text[pos]) then LetterRunEnd(text, pos + 1) else pos
  }

  /** `run.startsWith(name, i)`. */
  predicate StartsWithAt(run: string, i: nat, name: string) {
    i + |name| <= |run| && run[i..i + |name|] == name
  }

  /** `run` has the `n`-th function name at position `i`; a separate predicate so that
      the quantifiers below fire only on the names a proof asks about. */
  predicate NameMatches(run: string, i: nat, n: nat)
    requires n < |FuncNames|
  {
    StartsWithAt(run, i, FuncNames[n])
  }

  /** The index of the first name in `FuncNames`, from index `from` on, that `run` starts with at `i`
      (the `for (let fn of MATH_FUNCTIONS)` loop of `symbol`). */
  function FirstMatch(run: string, i: nat, from: nat): (r: Option<nat>)
    requires from <= |FuncNames|
    ensures r.Some? ==> && from <= r.value < |FuncNames|
                        && NameMatches(run, i, r.value)
                        && forall j :: from <= j < r.value ==> !NameMatches(run, i, j)
    ensures r.None? ==> forall j :: from <= j < |FuncNames| ==> !NameMatches(run, i, j)
    decreases |FuncNames| - from
  {
    if from == |FuncNames| then None
    else if NameMatches(run, i, from) then Some(from)
    else FirstMatch(run, i, from + 1)
  }

  /** The function name `symbol` picks at position `i` of `run`, if any. */
  function MatchAt(run: string, i: nat): (r: Option<string>)
    ensures r.Some? ==> r.value in FuncNames && |r.value| > 0 && StartsWithAt(run, i, r.value)
  {
    match FirstMatch(run, i, 0)
    case Some(n) => FuncNameNonEmpty(n); Some(FuncNames[n])
    case None => None
  }

  /** The name `cos` is tried before `cosec` and begins it, so no position of any run
      ever matches `cosec`. */
  lemma CosecNeverMatched(run: string, i: nat)
    ensures MatchAt(run, i) != Some("cosec")
  {
    if StartsWithAt(run, i, "cosec") {
      assert run[i..i + 3] == run[i..i + 5][..3];
      assert NameMatches(run, i, 1);
      assert FirstMatch(run, i, 0).value <= 1;
    }
  }

  const CosecToken: Token := Token(Func, Text("cosec"))

  /** `run[k]` is a letter; a separate predicate so that the quantifier of `IsLetterRun`
      fires only where a caller asks about a letter. */
  predicate LetterAt(run: string, k: nat)
    requires k < |run|
  {
    IsLetter(run[k])
  }

  /** A run as `symbol` collects it: letters only. */
  predicate IsLetterRun(run: string) {
    forall k :: 0 <= k < |run| ==> LetterAt(run, k)
  }

  /** A FUNC or VARIABLE token, as `symbol` builds them. */
  predicate IsPiece(t: Token) {
    WellFormed(t) && (t.kind == Func || t.kind == Variable)
  }

  /** The text a FUNC or VARIABLE piece stands for. */
  function PieceText(t: Token): string {
    match t.value
    case Text(s) => s
    case _ => ""
  }

  /** The letters a sequence of pieces spells. */
  function Concat(pieces: seq<Token>): string {
    if |pieces| == 0 then [] else PieceText(pieces[0]) + Concat(pieces[1..])
  }

  lemma ConcatCons(t: Token, rest: seq<Token>)
    ensures Concat([t] + rest) == PieceText(t) + Concat(rest)
  {
    assert ([t] + rest)[1..] == rest;
  }

  lemma SplitAtName(run: string, i: nat, name: string)
    requires StartsWithAt(run, i, name)
    ensures run[i..] == name + run[i + |name|..]
  {
    assert run[i..i + |name|] == name;
  }

  /** One step of the segmentation loop of `symbol` at position `i`: the first function
      name that matches there, or else the letter there as a variable. */
  function FirstPiece(run: string, i: nat): (t: Token)
    requires i < |run| && IsLetterRun(run)
    ensures IsPiece(t) && t != CosecToken
    ensures 0 < |PieceText(t)| && StartsWithAt(run, i, PieceText(t))
    ensures t.kind == Variable <==> MatchAt(run, i).None?
  {
    CosecNeverMatched(run, i);
    match MatchAt(run, i)
    case Some(name) =>
      FuncTokenWellFormed(name);
      Token(Func, Text(name))
    case None =>
      assert LetterAt(run, i);
      VariableTokenWellFormed(run[i]);
      Token(Variable, Text([run[i]]))
  }

  /** Putting a first piece in front of the pieces of the rest of the run. */
  lemma PiecesCons(run: string, i: nat, t: Token, rest: seq<Token>)
    requires IsPiece(t) && t != CosecToken && 0 < |PieceText(t)| && StartsWithAt(run, i, PieceText(t))
    requires Concat(rest) == run[i + |PieceText(t)|..] && |rest| <= |run| - i - |PieceText(t)|
    requires forall k :: 0 <= k < |rest| ==> IsPiece(rest[k]) && rest[k] != CosecToken
    ensures Concat([t] + rest) == run[i..] && |[t] + rest| <= |run| - i
    ensures forall k :: 0 <= k < |[t] + rest| ==> IsPiece(([t] + rest)[k]) && ([t] + rest)[k] != CosecToken
  {
    SplitAtName(run, i, PieceText(t));
    ConcatCons(t, rest);
  }

  /** The segmentation loop of `symbol`, without its MUL tokens: from position `i` on,
      each step takes the first matching function name, or else one letter as a variable.
      The pieces spell the run, and `cos` shadows `cosec`. */
  function Pieces(run: string, i: nat): (r: seq<Token>)
    requires i <= |run| && IsLetterRun(run)
    ensures |r| == 0 <==> i == |run|
    ensures |r| <= |run| - i
    ensures Concat(r) == run[i..]
    ensures forall k :: 0 <= k < |r| ==> IsPiece(r[k]) && r[k] != CosecToken
    decreases |run| - i
  {
    if i == |run| then []
    else
      var t := FirstPiece(run, i);
      var rest := Pieces(run, i + |PieceText(t)|);
      PiecesCons(run, i, t, rest);
      [t] + rest
  }

  /** Puts a MUL token between every two consecutive pieces and none before the first
      (`if (tokens.length > 0) tokens.push(MUL)` before each piece). */
  function JoinWithMul(pieces: seq<Token>): (r: seq<Token>)
    ensures |r| == if |pieces| == 0 then 0 else 2 * |pieces| - 1
    ensures |pieces| > 0 ==> r[0] == pieces[0]
    ensures forall k :: 0 <= k < |r| ==> r[k] == MulToken || r[k] in pieces
  {
    if |pieces| <= 1 then pieces
    else [pieces[0], MulToken] + JoinWithMul(pieces[1..])
  }

  /** Position by position: the pieces sit at the even positions, in order, and MUL at the odd ones. */
  lemma {:induction false} JoinWithMulAt(pieces: seq<Token>, k: nat)
    requires k < |JoinWithMul(pieces)|
    ensures JoinWithMul(pieces)[k] == if k % 2 == 0 then pieces[k / 2] else MulToken
    decreases |pieces|
  {
    if |pieces| > 1 && k >= 2 {
      JoinWithMulAt(pieces[1..], k - 2);
      assert JoinWithMul(pieces)[k] == JoinWithMul(pieces[1..])[k - 2];
    }
  }

  /** After a letter run, the first joined token is a piece and every token is deliverable. */
  lemma JoinedTokensDeliverable(pieces: seq<Token>)
    requires |pieces| > 0
    requires forall k :: 0 <= k < |pieces| ==> IsPiece(pieces[k])
    ensures IsPiece(JoinWithMul(pieces)[0])
    ensures forall k :: 0 <= k < |JoinWithMul(pieces)| ==> Deliverable(JoinWithMul(pieces)[k])
  {
    var toks := JoinWithMul(pieces);
    forall k | 0 <= k < |toks| ensures Deliverable(toks[k]) {
      if toks[k] == MulToken {
        MulTokenWellFormed();
      } else {
        var j :| 0 <= j < |pieces| && pieces[j] == toks[k];
        assert IsPiece(pieces[j]);
      }
    }
  }

  /** Buffering all but the first of a sequence of deliverable tokens keeps the state valid. */
  lemma BufferTail(text: string, pos: nat, toks: seq<Token>)
    requires pos <= |text| && |toks| > 0
    requires forall k :: 0 <= k < |toks| ==> Deliverable(toks[k])
    ensures Valid(text, State(pos, toks[1..]))
  {
    forall k | 0 <= k < |toks| - 1 ensures Deliverable(toks[1..][k]) {
      assert toks[1..][k] == toks[k + 1];
    }
  }

  /** The NUMBER branch of `getNextToken`, at a digit at position `p`: the numeric run
      becomes one token, and a MUL is buffered when a letter or `(` follows the run directly. */
  function NumberStep(text: string, p: nat): (r: Result<(Token, State), LexError>)
    requires p < |text| && IsDigit(text[p])
    ensures r.Ok? ==> var (t, st) := r.value;
                      && p < st.pos <= |text|
                      && t == Token(Number, NumberValue(text[p..st.pos]))
                      && IsNumeral(text[p..st.pos])
                      && (st.pos == |text| || !IsNumeralChar(text[st.pos]))
                      && st.buffer == if st.pos < |text| && (IsLetter(text[st.pos]) || text[st.pos] == '(')
                                      then [MulToken] else []
    ensures r.Err? ==> && r.error.MultipleDots?
                       && p < r.error.pos < |text|
                       && text[r.error.pos] == '.'
                       && (forall k :: p <= k < r.error.pos ==> IsNumeralChar(text[k]))
                       && DotCount(text[p..r.error.pos]) == 1
  {
    assert text[p..p] == [];
    var end :- ScanNumber(text, p, p, false);
    var buffer := if end < |text| && (IsLetter(text[end]) || text[end] == '(') then [MulToken] else [];
    Ok((Token(Number, NumberValue(text[p..end])), State(end, buffer)))
  }

  /** The letter branch of `getNextToken` (`symbol`): the maximal letter run is split
      into pieces joined by MUL; the first is returned and the rest buffered. */
  function SymbolStep(text: string, p: nat): (r: (Token, State))
    requires p < |text| && IsLetter(text[p])
    ensures var (t, st) := r;
            && p < st.pos <= |text|
            && (forall k :: p <= k < st.pos ==> IsLetter(text[k]))
            && (st.pos == |text| || !IsLetter(text[st.pos]))
            && [t] + st.buffer == JoinWithMul(Pieces(text[p..st.pos], 0))
            && 2 * (st.pos - p) > |st.buffer|
            && IsPiece(t)
            && Valid(text, st)
  {
    var end := LetterRunEnd(text, p);
    var run := text[p..end];
    assert IsLetterRun(run) by {
      forall k | 0 <= k < |run| ensures LetterAt(run, k) { assert run[k] == text[p + k]; }
    }
    var pieces := Pieces(run, 0);
    var toks := JoinWithMul(pieces);
    JoinedTokensDeliverable(pieces);
    BufferTail(text, end, toks);
    assert [toks[0]] + toks[1..] == toks;
    (toks[0], State(end, toks[1..]))
  }

  /** The `)` branch of `getNextToken`: a MUL is buffered when a letter, a digit
      or `(` follows directly. */
  function CloseStep(text: string, p: nat): (r: (Token, State))
    requires p < |text| && text[p] == ')'
    ensures r.0 == Token(CloseBracket, Text(")")) && r.1.pos == p + 1
    ensures r.1.buffer == [MulToken] <==>
              p + 1 < |text| && (IsLetter(text[p + 1]) || IsDigit(text[p + 1]) || text[p + 1] == '(')
    ensures r.1.buffer == [] || r.1.buffer == [MulToken]
  {
    var buffer :=
      if p + 1 < |text| && (IsLetter(text[p + 1]) || text[p + 1] == '(' || IsDigit(text[p + 1]))
      then [MulToken] else [];
    (Token(CloseBracket, Text(")")), State(p + 1, buffer))
  }

  /** `getNextToken`: delivers a buffered token if there is one, otherwise skips
      whitespace and scans one token. */
  function Next(text: string, st: State): (r: Result<(Token, State), LexError>)
    requires Valid(text, st)
    ensures r.Ok? ==> Valid(text, r.value.1) && WellFormed(r.value.0)
    ensures r.Ok? && r.value.0.kind != Eof ==> Measure(text, r.value.1) < Measure(text, st)
    ensures r.Ok? && r.value.0.kind == Eof ==> && st.buffer == []
                                               && r.value.1 == State(|text|, [])
                                               && forall k :: st.pos <= k < |text| ==> IsWhiteSpace(text[k])
    ensures r.Err? ==> && st.buffer == []
                       && SkipWhiteSpace(text, st.pos) <= r.error.pos < |text|
                       && (r.error.UnknownCharacter? ==>
                             && r.error.pos == SkipWhiteSpace(text, st.pos)
                             && r.error.c == text[r.error.pos] && !IsTokenStart(r.error.c))
                       && (r.error.MultipleDots? ==> text[r.error.pos] == '.')
  {
    if |st.buffer| > 0 then
      Ok((st.buffer[0], State(st.pos, st.buffer[1..])))
    else
      var p := SkipWhiteSpace(text, st.pos);
      if p == |text| then
        Ok((EofToken, State(p, [])))
      else if IsDigit(text[p]) then
        NumberStep(text, p)
      else if IsLetter(text[p]) then
        Ok(SymbolStep(text, p))
      else if text[p] == ')' then
        Ok(CloseStep(text, p))
      else
        match GlyphKind(text[p])
        case Some(k) => Ok((Token(k, Text([text[p]])), State(p + 1, [])))
        case None => Err(UnknownCharacter(text[p], p))
  }

  /** What a caller that keeps calling `getNextToken` until EOF receives: the tokens
      delivered in order, and the error the next call throws, if one does. */
  datatype Stream = Stream(toks: seq<Token>, fault: Option<LexError>)

  /** Only the last token can be EOF, and it is EOF exactly when no call failed. */
  predicate ValidStream(s: Stream) {
    && (forall k :: 0 <= k < |s.toks| - 1 ==> s.toks[k].kind != Eof)
    && (s.fault.None? <==> |s.toks| > 0 && s.toks[|s.toks| - 1].kind == Eof)
  }

  /** Calls `Next` from `st` until it returns EOF or fails. */
  function Drain(text: string, st: State): (r: Stream)
    requires Valid(text, st)
    ensures ValidStream(r)
    ensures forall k :: 0 <= k < |r.toks| ==> WellFormed(r.toks[k])
    decreases Measure(text, st)
  {
    match Next(text, st)
    case Err(e) => Stream([], Some(e))
    case Ok((t, st')) =>
      if t.kind == Eof then Stream([t], None)
      else
        var rest := Drain(text, st');
        Stream([t] + rest.toks, rest.fault)
  }

  /** The stream of a fresh lexer over `text` (the `collectTokens` loop of the tests). */
  function Tokenize(text: string): (r: Stream)
    ensures ValidStream(r)
    ensures forall k :: 0 <= k < |r.toks| ==> WellFormed(r.toks[k])
  {
    Drain(text, Start)
  }

  /** The `n`-th call (counting from 0) of `getNextToken` on a lexer in state `st`. */
  function Pull(text: string, st: State, n: nat): (r: Result<(Token, State), LexError>)
    requires Valid(text, st)
    ensures r.Ok? ==> Valid(text, r.value.1)
    decreases n
  {
    match Next(text, st)
    case Err(e) => Err(e)
    case Ok((t, st')) => if n == 0 then Ok((t, st')) else Pull(text, st', n - 1)
  }
}
