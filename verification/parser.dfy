/** The recursive-descent parser of src/Parser/index.ts.

    The source parser pulls tokens from the lexer one at a time: the constructor pulls the
    first one and every successful `eat` pulls the next. The model parses a `Stream` (the
    tokens a caller pulling until EOF receives, and the lexer error that ends it early, if
    any) at an index `i`: being at `i` means the parser has pulled exactly the tokens
    `toks[..i + 1]`. Pulling past the delivered tokens reports the stream's lexer error, so
    a lexer error surfaces exactly when, and only if, the source parser would pull it. */
module Parser {

  import opened Results
  import opened Tokens
  import opened Lexer
  import opened Ast

  datatype ParseError =
    | Lex(error: LexError)                  // a lexer error met while pulling a token
    | Expected(want: Kind, got: Kind)       // `eat` saw another kind than the one it wanted
    | UnexpectedToken(got: Kind)            // `SingleAtom` cannot start with this kind
    | TrailingInput(got: Kind)              // `parse`: the expression ended before EOF

  /** A parse result: the tree and the index of the parser's current token after it. */
  type Parsed = Result<(Node, nat), ParseError>

  /** The parser's current token is `s.toks[i]`. */
  predicate At(s: Stream, i: nat) {
    ValidStream(s) && i < |s.toks|
  }

  /** The token at `k` is one the lexer can build. */
  predicate TokenOk(s: Stream, k: nat)
    requires k < |s.toks|
  {
    WellFormed(s.toks[k])
  }

  predicate AllWellFormed(s: Stream) {
    forall k :: 0 <= k < |s.toks| ==> TokenOk(s, k)
  }

  lemma TokenShape(s: Stream, i: nat)
    requires i < |s.toks|
    ensures AllWellFormed(s) ==> WellFormed(s.toks[i])
  {
    if AllWellFormed(s) {
      assert TokenOk(s, i);
    }
  }

  /** The kinds the `Atom` loop continues on. */
  predicate StartsAtom(k: Kind) {
    k == Number || k == Variable || k == Func || k == OpenBracket
  }

  /** The kinds a complete Power (and Factor) can be followed by. */
  predicate EndsPower(k: Kind) {
    !StartsAtom(k) && k != Pow
  }

  /** The kinds a complete Term can be followed by. */
  predicate EndsTerm(k: Kind) {
    EndsPower(k) && k != Mul && k != Div
  }

  /** The kinds a complete Expr can be followed by. */
  predicate EndsExpr(k: Kind) {
    EndsTerm(k) && k != Plus && k != Minus
  }

  lemma EndsExprKinds(k: Kind)
    ensures EndsExpr(k) <==> k == CloseBracket || k == Eof || k == Constant
  {
  }

  /** A successful parse from `i` consumed at least one token and left the parser at a token;
      a failed one failed inside the expression. */
  predicate Advanced(s: Stream, i: nat, r: Parsed) {
    && (r.Ok? ==> i < r.value.1 < |s.toks|)
    && (r.Err? ==> !r.error.TrailingInput?)
  }

  /** Trees built from lexer tokens are well formed. */
  predicate Shaped(s: Stream, r: Parsed) {
    r.Ok? && AllWellFormed(s) ==> WellFormedNode(r.value.0)
  }

  /** An operator token carries its glyph, so the `BinOpr` built from it has a known operator. */
  lemma OperatorGlyph(s: Stream, i: nat)
    requires i < |s.toks|
    requires var k := s.toks[i].kind; k == Plus || k == Minus || k == Mul || k == Div || k == Pow
    ensures AllWellFormed(s) ==> AsString(s.toks[i].value) in Operators
  {
    if AllWellFormed(s) {
      TokenShape(s, i);
      var g := s.toks[i].value.s;
      assert g == [g[0]];
    }
  }

  /** `eat(k)`: checks the current token's kind and pulls the next token. */
  function Eat(s: Stream, i: nat, k: Kind): (r: Result<nat, ParseError>)
    requires At(s, i) && k != Eof
    ensures r.Ok? <==> s.toks[i].kind == k && i + 1 < |s.toks|
    ensures r.Ok? ==> r.value == i + 1
    ensures r.Err? ==> if s.toks[i].kind == k then r.error == Lex(s.fault.value)
                       else r.error == Expected(k, s.toks[i].kind)
  {
    if s.toks[i].kind != k then Err(Expected(k, s.toks[i].kind))
    else if i + 1 < |s.toks| then Ok(i + 1)
    else Err(Lex(s.fault.value))
  }

  /** `Expr → Term ((+ | -) Term)*`. */
  function Expr(s: Stream, i: nat): (r: Parsed)
    requires At(s, i)
    ensures Advanced(s, i, r) && Shaped(s, r)
    ensures r.Ok? ==> EndsExpr(s.toks[r.value.1].kind)
    decreases |s.toks| - i, 6
  {
    var t :- Term(s, i);
    ExprTail(s, t.0, t.1)
  }

  /** The `+`/`-` loop of `Expr`, with `node` the tree so far: folds to the left. */
  function ExprTail(s: Stream, node: Node, i: nat): (r: Parsed)
    requires At(s, i) && EndsTerm(s.toks[i].kind)
    ensures r.Ok? ==> i <= r.value.1 < |s.toks| && EndsExpr(s.toks[r.value.1].kind)
    ensures r.Ok? && AllWellFormed(s) && WellFormedNode(node) ==> WellFormedNode(r.value.0)
    ensures r.Err? ==> !r.error.TrailingInput?
    decreases |s.toks| - i, 6
  {
    var tok := s.toks[i];
    if tok.kind == Plus || tok.kind == Minus then
      var j :- Eat(s, i, tok.kind);
      var t :- Term(s, j);
      OperatorGlyph(s, i);
      ExprTail(s, BinOp(AsString(tok.value), node, t.0), t.1)
    else
      Ok((node, i))
  }

  /** `Term → Factor ((* | /) Factor)*`. */
  function Term(s: Stream, i: nat): (r: Parsed)
    requires At(s, i)
    ensures Advanced(s, i, r) && Shaped(s, r)
    ensures r.Ok? ==> EndsTerm(s.toks[r.value.1].kind)
    decreases |s.toks| - i, 5
  {
    var f :- Factor(s, i);
    TermTail(s, f.0, f.1)
  }

  /** The `*`/`/` loop of `Term`, with `node` the tree so far: folds to the left. */
  function TermTail(s: Stream, node: Node, i: nat): (r: Parsed)
    requires At(s, i) && EndsPower(s.toks[i].kind)
    ensures r.Ok? ==> i <= r.value.1 < |s.toks| && EndsTerm(s.toks[r.value.1].kind)
    ensures r.Ok? && AllWellFormed(s) && WellFormedNode(node) ==> WellFormedNode(r.value.0)
    ensures r.Err? ==> !r.error.TrailingInput?
    decreases |s.toks| - i, 5
  {
    var tok := s.toks[i];
    if tok.kind == Mul || tok.kind == Div then
      var j :- Eat(s, i, tok.kind);
      var f :- Factor(s, j);
      OperatorGlyph(s, i);
      TermTail(s, BinOp(AsString(tok.value), node, f.0), f.1)
    else
      Ok((node, i))
  }

  /** The sign loop of `Factor`: the kinds of the leading `+`/`-` tokens, in order. */
  function Signs(s: Stream, i: nat): (r: Result<(seq<Kind>, nat), ParseError>)
    requires At(s, i)
    ensures r.Ok? ==> && i + |r.value.0| == r.value.1 < |s.toks|
                      && (forall k :: 0 <= k < |r.value.0| ==> r.value.0[k] == s.toks[i + k].kind)
                      && (forall k :: 0 <= k < |r.value.0| ==> r.value.0[k] == Plus || r.value.0[k] == Minus)
                      && s.toks[r.value.1].kind != Plus && s.toks[r.value.1].kind != Minus
    ensures r.Err? ==> !r.error.TrailingInput?
    decreases |s.toks| - i
  {
    var k := s.toks[i].kind;
    if k == Plus || k == Minus then
      var j :- Eat(s, i, k);
      var rest :- Signs(s, j);
      Ok(([k] + rest.0, rest.1))
    else
      Ok(([], i))
  }

  /** The wrapping loop of `Factor`: pops the collected signs from the end, so the sign
      nearest the operand wraps it first. */
  function Wrap(signs: seq<Kind>, node: Node): Node
    decreases |signs|
  {
    if |signs| == 0 then node
    else Wrap(signs[..|signs| - 1], Unary(signs[|signs| - 1], node))
  }

  /** `Factor → (+ | -)* Power`. */
  function Factor(s: Stream, i: nat): (r: Parsed)
    requires At(s, i)
    ensures Advanced(s, i, r) && Shaped(s, r)
    ensures r.Ok? ==> EndsPower(s.toks[r.value.1].kind)
    decreases |s.toks| - i, 4
  {
    var sg :- Signs(s, i);
    var p :- Power(s, sg.1);
    WrapShaped(sg.0, p.0);
    Ok((Wrap(sg.0, p.0), p.1))
  }

  lemma {:induction false} WrapShaped(signs: seq<Kind>, node: Node)
    requires forall k :: 0 <= k < |signs| ==> signs[k] == Plus || signs[k] == Minus
    ensures WellFormedNode(node) ==> WellFormedNode(Wrap(signs, node))
    decreases |signs|
  {
    if |signs| > 0 {
      WrapShaped(signs[..|signs| - 1], Unary(signs[|signs| - 1], node));
    }
  }

  /** `Power → Atom (^ Power)?`: right-associative. */
  function Power(s: Stream, i: nat): (r: Parsed)
    requires At(s, i)
    ensures Advanced(s, i, r) && Shaped(s, r)
    ensures r.Ok? ==> EndsPower(s.toks[r.value.1].kind)
    decreases |s.toks| - i, 3
  {
    var a :- Atom(s, i);
    var tok := s.toks[a.1];
    if tok.kind == Pow then
      var j :- Eat(s, a.1, Pow);
      var p :- Power(s, j);
      OperatorGlyph(s, a.1);
      Ok((BinOp(AsString(tok.value), a.0, p.0), p.1))
    else
      Ok(a)
  }

  /** `Atom → SingleAtom SingleAtom*`: adjacent atoms fold to the left into `*` nodes. */
  function Atom(s: Stream, i: nat): (r: Parsed)
    requires At(s, i)
    ensures Advanced(s, i, r) && Shaped(s, r)
    ensures r.Ok? ==> !StartsAtom(s.toks[r.value.1].kind)
    decreases |s.toks| - i, 2
  {
    var a :- SingleAtom(s, i);
    AtomTail(s, a.0, a.1)
  }

  /** The implicit-multiplication loop of `Atom`, with `node` the tree so far. */
  function AtomTail(s: Stream, node: Node, i: nat): (r: Parsed)
    requires At(s, i)
    ensures r.Ok? ==> i <= r.value.1 < |s.toks| && !StartsAtom(s.toks[r.value.1].kind)
    ensures r.Ok? && AllWellFormed(s) && WellFormedNode(node) ==> WellFormedNode(r.value.0)
    ensures r.Err? ==> !r.error.TrailingInput?
    decreases |s.toks| - i, 1
  {
    if StartsAtom(s.toks[i].kind) then
      var b :- SingleAtom(s, i);
      AtomTail(s, BinOp("*", node, b.0), b.1)
    else
      Ok((node, i))
  }

  /** `SingleAtom → NUMBER | CONSTANT | VARIABLE | FUNC ( Expr ) | ( Expr )`. */
  function SingleAtom(s: Stream, i: nat): (r: Parsed)
    requires At(s, i)
    ensures Advanced(s, i, r) && Shaped(s, r)
    decreases |s.toks| - i, 0
  {
    var tok := s.toks[i];
    TokenShape(s, i);
    match tok.kind
    case Number =>
      var j :- Eat(s, i, Number);
      Ok((Num(NumberText(tok.value)), j))
    case Constant =>
      var j :- Eat(s, i, Constant);
      Ok((Num(NumberText(tok.value)), j))
    case Variable =>
      var j :- Eat(s, i, Variable);
      Ok((Symbol(AsString(tok.value)), j))
    case Func =>
      var j :- Eat(s, i, Func);
      var j' :- Eat(s, j, OpenBracket);
      var e :- Expr(s, j');
      var j'' :- Eat(s, e.1, CloseBracket);
      Ok((FuncCall(AsString(tok.value), e.0), j''))
    case OpenBracket =>
      var j :- Eat(s, i, OpenBracket);
      var e :- Expr(s, j);
      var j' :- Eat(s, e.1, CloseBracket);
      Ok((e.0, j'))
    case _ =>
      Err(UnexpectedToken(tok.kind))
  }

  /** The literal a `Num` node is built from: `Number(token.value)`. Only NUMBER tokens,
      which carry their literal, reach it from the lexer. */
  function NumberText(v: Value): string {
    match v
    case NumberValue(lit) => lit
    case Text(s) => s
    case Null => ""
  }

  /** `parse`: pulls the first token, parses one Expr and requires EOF after it. */
  function Parse(s: Stream): (r: Result<Node, ParseError>)
    requires ValidStream(s)
    ensures r.Ok? ==> s.fault.None?
    ensures r.Ok? && AllWellFormed(s) ==> WellFormedNode(r.value)
    ensures r.Err? && r.error.TrailingInput? ==> r.error.got == CloseBracket || r.error.got == Constant
  {
    if |s.toks| == 0 then Err(Lex(s.fault.value))
    else
      var e :- Expr(s, 0);
      EndsExprKinds(s.toks[e.1].kind);
      if s.toks[e.1].kind != Eof then Err(TrailingInput(s.toks[e.1].kind))
      else Ok(e.0)
  }

  /** A fresh lexer over `text` feeding a fresh parser. */
  function ParseText(text: string): Result<Node, ParseError> {
    Parse(Tokenize(text))
  }
}
