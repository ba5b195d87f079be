/** Properties of the parser: how signs nest, how a lone atom passes through the
    precedence levels, and that parsing undoes a fully bracketed printing of a tree. */
module ParserFacts {

  import opened Results
  import opened Tokens
  import opened Lexer
  import opened Ast
  import opened Parser

  /** The collected signs wrap the operand with the leftmost sign outermost. */
  lemma {:induction false} WrapOutermost(k: Kind, rest: seq<Kind>, node: Node)
    ensures Wrap([k] + rest, node) == Unary(k, Wrap(rest, node))
    decreases |rest|
  {
    if |rest| > 0 {
      var last := rest[|rest| - 1];
      assert ([k] + rest)[..|rest|] == [k] + rest[..|rest| - 1];
      WrapOutermost(k, rest[..|rest| - 1], Unary(last, node));
    }
  }

  // A single atom followed by a token that ends a level passes through that level unchanged.

  lemma AtomOfSingle(s: Stream, i: nat, e: Node, j: nat)
    requires At(s, i) && SingleAtom(s, i) == Ok((e, j)) && !StartsAtom(s.toks[j].kind)
    ensures Atom(s, i) == Ok((e, j))
  {
  }

  lemma PowerOfAtom(s: Stream, i: nat, e: Node, j: nat)
    requires At(s, i) && Atom(s, i) == Ok((e, j)) && s.toks[j].kind != Pow
    ensures Power(s, i) == Ok((e, j))
  {
  }

  lemma FactorOfPower(s: Stream, i: nat, e: Node, j: nat)
    requires At(s, i) && Power(s, i) == Ok((e, j))
    requires s.toks[i].kind != Plus && s.toks[i].kind != Minus
    ensures Factor(s, i) == Ok((e, j))
  {
    assert Signs(s, i) == Ok(([], i));
  }

  lemma TermOfFactor(s: Stream, i: nat, e: Node, j: nat)
    requires At(s, i) && Factor(s, i) == Ok((e, j)) && EndsTerm(s.toks[j].kind)
    ensures Term(s, i) == Ok((e, j))
  {
  }

  lemma ExprOfTerm(s: Stream, i: nat, e: Node, j: nat)
    requires At(s, i) && Term(s, i) == Ok((e, j)) && EndsExpr(s.toks[j].kind)
    ensures Expr(s, i) == Ok((e, j))
  {
  }

  /** A single atom passes through every level whose loop its follower does not continue. */
  lemma ThroughLevels(s: Stream, i: nat, e: Node, j: nat)
    requires At(s, i) && SingleAtom(s, i) == Ok((e, j))
    requires s.toks[i].kind != Plus && s.toks[i].kind != Minus
    ensures !StartsAtom(s.toks[j].kind) ==> Atom(s, i) == Ok((e, j))
    ensures EndsPower(s.toks[j].kind) ==> Power(s, i) == Ok((e, j)) && Factor(s, i) == Ok((e, j))
    ensures EndsTerm(s.toks[j].kind) ==> Term(s, i) == Ok((e, j))
    ensures EndsExpr(s.toks[j].kind) ==> Expr(s, i) == Ok((e, j))
  {
    var k := s.toks[j].kind;
    if !StartsAtom(k) {
      AtomOfSingle(s, i, e, j);
      if EndsPower(k) {
        PowerOfAtom(s, i, e, j);
        FactorOfPower(s, i, e, j);
        if EndsTerm(k) {
          TermOfFactor(s, i, e, j);
          if EndsExpr(k) {
            ExprOfTerm(s, i, e, j);
          }
        }
      }
    }
  }

  const OpenToken: Token := Token(OpenBracket, Text("("))
  const CloseToken: Token := Token(CloseBracket, Text(")"))

  /** The token an operator glyph is lexed as. */
  function OperatorToken(op: string): (t: Token)
    requires op in Operators
    ensures AsString(t.value) == op
    ensures t.kind == Plus || t.kind == Minus || t.kind == Mul || t.kind == Div || t.kind == Pow
    ensures t.kind == Pow <==> op == "^"
    ensures t.kind == Mul || t.kind == Div <==> op == "*" || op == "/"
  {
    if op == "+" then Token(Plus, Text(op))
    else if op == "-" then Token(Minus, Text(op))
    else if op == "*" then Token(Mul, Text(op))
    else if op == "/" then Token(Div, Text(op))
    else Token(Pow, Text(op))
  }

  /** Prints a tree as tokens with every operator node in brackets. */
  function Unparse(e: Node): (r: seq<Token>)
    requires WellFormedNode(e)
    ensures |r| == Width(e)
  {
    match e
    case Num(lit) => [Token(Number, NumberValue(lit))]
    case Symbol(name) => [Token(Variable, Text(name))]
    case FuncCall(name, arg) => [Token(Func, Text(name)), OpenToken] + Unparse(arg) + [CloseToken]
    case Unary(sign, x) => [OpenToken, SignToken(sign)] + Unparse(x) + [CloseToken]
    case BinOp(op, l, r) => [OpenToken] + Unparse(l) + [OperatorToken(op)] + Unparse(r) + [CloseToken]
  }

  function SignToken(sign: Kind): Token {
    Token(sign, Text(if sign == Plus then "+" else "-"))
  }

  /** The number of tokens in the bracketed printing of `e`. */
  function Width(e: Node): nat {
    match e
    case Num(_) => 1
    case Symbol(_) => 1
    case FuncCall(_, arg) => Width(arg) + 3
    case Unary(_, x) => Width(x) + 3
    case BinOp(_, l, r) => Width(l) + Width(r) + 3
  }

  predicate IsOperatorKind(k: Kind) {
    k == Plus || k == Minus || k == Mul || k == Div || k == Pow
  }

  /** A bracketed printing of `e` sits in `toks` at index `i`, stated node by node and only as
      far as the parser looks at it: the kinds of the punctuation, the glyph of each operator,
      the text of each leaf. */
  predicate PrintedAt(toks: seq<Token>, i: nat, e: Node)
    decreases e, 1
  {
    && i + Width(e) <= |toks|
    && match e
       case Num(lit) => toks[i] == Token(Number, NumberValue(lit))
       case Symbol(name) => toks[i] == Token(Variable, Text(name))
       case FuncCall(name, arg) => PrintedCall(toks, i, name, arg)
       case Unary(sign, x) => PrintedUnary(toks, i, sign, x)
       case BinOp(op, l, r) => PrintedBinOp(toks, i, op, l, r)
  }

  predicate PrintedCall(toks: seq<Token>, i: nat, name: string, arg: Node)
    decreases FuncCall(name, arg), 0
  {
    && i + Width(arg) + 3 <= |toks|
    && toks[i] == Token(Func, Text(name)) && toks[i + 1].kind == OpenBracket
    && PrintedAt(toks, i + 2, arg) && toks[i + 2 + Width(arg)].kind == CloseBracket
  }

  predicate PrintedUnary(toks: seq<Token>, i: nat, sign: Kind, x: Node)
    decreases Unary(sign, x), 0
  {
    && i + Width(x) + 3 <= |toks|
    && toks[i].kind == OpenBracket && toks[i + 1].kind == sign && (sign == Plus || sign == Minus)
    && PrintedAt(toks, i + 2, x) && toks[i + 2 + Width(x)].kind == CloseBracket
  }

  predicate PrintedBinOp(toks: seq<Token>, i: nat, op: string, l: Node, r: Node)
    decreases BinOp(op, l, r), 0
  {
    && i + Width(l) + Width(r) + 3 <= |toks|
    && toks[i].kind == OpenBracket && PrintedAt(toks, i + 1, l)
    && IsOperatorKind(toks[i + 1 + Width(l)].kind) && AsString(toks[i + 1 + Width(l)].value) == op
    && PrintedAt(toks, i + 2 + Width(l), r) && toks[i + 2 + Width(l) + Width(r)].kind == CloseBracket
  }

  /** The printing of every tree starts with a token that can start an atom. */
  lemma PrintedStartsAtom(toks: seq<Token>, i: nat, e: Node)
    requires PrintedAt(toks, i, e)
    ensures i < |toks| && StartsAtom(toks[i].kind)
  {
  }

  /** A printing stays readable when tokens are put in front of it. */
  lemma {:induction false} PrintedShift(pre: seq<Token>, t: seq<Token>, i: nat, e: Node)
    requires PrintedAt(t, i, e)
    ensures PrintedAt(pre + t, |pre| + i, e)
    decreases e, 1
  {
    match e
    case Num(_) =>
    case Symbol(_) =>
    case FuncCall(name, arg) => FuncCallShift(pre, t, i, name, arg);
    case Unary(sign, x) => UnaryShift(pre, t, i, sign, x);
    case BinOp(op, l, r) => BinOpShift(pre, t, i, op, l, r);
  }

  lemma {:induction false} FuncCallShift(pre: seq<Token>, t: seq<Token>, i: nat, name: string, arg: Node)
    requires PrintedAt(t, i, FuncCall(name, arg))
    ensures PrintedAt(pre + t, |pre| + i, FuncCall(name, arg))
    decreases FuncCall(name, arg), 0
  {
    PrintedShift(pre, t, i + 2, arg);
  }

  lemma {:induction false} UnaryShift(pre: seq<Token>, t: seq<Token>, i: nat, sign: Kind, x: Node)
    requires PrintedAt(t, i, Unary(sign, x))
    ensures PrintedAt(pre + t, |pre| + i, Unary(sign, x))
    decreases Unary(sign, x), 0
  {
    PrintedShift(pre, t, i + 2, x);
  }

  lemma {:induction false} BinOpShift(pre: seq<Token>, t: seq<Token>, i: nat, op: string, l: Node, r: Node)
    requires PrintedAt(t, i, BinOp(op, l, r))
    ensures PrintedAt(pre + t, |pre| + i, BinOp(op, l, r))
    decreases BinOp(op, l, r), 0
  {
    PrintedShift(pre, t, i + 1, l);
    PrintedShift(pre, t, i + 2 + Width(l), r);
  }

  /** `Unparse` produces a printing, whatever follows it. */
  lemma {:induction false} UnparsePrinted(e: Node, rest: seq<Token>)
    requires WellFormedNode(e)
    ensures PrintedAt(Unparse(e) + rest, 0, e)
    decreases e, 1
  {
    match e
    case Num(_) =>
    case Symbol(_) =>
    case FuncCall(name, arg) => FuncCallPrinted(name, arg, rest);
    case Unary(sign, x) => UnaryPrinted(sign, x, rest);
    case BinOp(op, l, r) => BinOpPrinted(op, l, r, rest);
  }

  lemma {:induction false} FuncCallPrinted(name: string, arg: Node, rest: seq<Token>)
    requires WellFormedNode(FuncCall(name, arg))
    ensures PrintedAt(Unparse(FuncCall(name, arg)) + rest, 0, FuncCall(name, arg))
    decreases FuncCall(name, arg), 0
  {
    var a := Unparse(arg);
    var pre := [Token(Func, Text(name)), OpenToken];
    assert Unparse(FuncCall(name, arg)) + rest == pre + (a + ([CloseToken] + rest));
    UnparsePrinted(arg, [CloseToken] + rest);
    PrintedShift(pre, a + ([CloseToken] + rest), 0, arg);
  }

  lemma {:induction false} UnaryPrinted(sign: Kind, x: Node, rest: seq<Token>)
    requires WellFormedNode(Unary(sign, x))
    ensures PrintedAt(Unparse(Unary(sign, x)) + rest, 0, Unary(sign, x))
    decreases Unary(sign, x), 0
  {
    var a := Unparse(x);
    var pre := [OpenToken, SignToken(sign)];
    assert Unparse(Unary(sign, x)) + rest == pre + (a + ([CloseToken] + rest));
    UnparsePrinted(x, [CloseToken] + rest);
    PrintedShift(pre, a + ([CloseToken] + rest), 0, x);
  }

  lemma {:induction false} BinOpPrinted(op: string, l: Node, r: Node, rest: seq<Token>)
    requires WellFormedNode(BinOp(op, l, r))
    ensures PrintedAt(Unparse(BinOp(op, l, r)) + rest, 0, BinOp(op, l, r))
    decreases BinOp(op, l, r), 0
  {
    var a := Unparse(l);
    var b := Unparse(r);
    var q := OperatorToken(op);
    assert Unparse(BinOp(op, l, r)) + rest == [OpenToken] + a + [q] + b + [CloseToken] + rest;
    UnparsePrinted(l, [q] + b + [CloseToken] + rest);
    UnparsePrinted(r, [CloseToken] + rest);
    AssembleBinOp(a, q, b, rest, op, l, r);
  }

  /** Printings of the operands around an operator token, in brackets, print the operator node. */
  lemma AssembleBinOp(a: seq<Token>, q: Token, b: seq<Token>, rest: seq<Token>, op: string, l: Node, r: Node)
    requires |a| == Width(l) && |b| == Width(r)
    requires PrintedAt(a + ([q] + b + [CloseToken] + rest), 0, l)
    requires PrintedAt(b + ([CloseToken] + rest), 0, r)
    requires IsOperatorKind(q.kind) && AsString(q.value) == op
    ensures PrintedAt([OpenToken] + a + [q] + b + [CloseToken] + rest, 0, BinOp(op, l, r))
  {
    var toks := [OpenToken] + a + [q] + b + [CloseToken] + rest;
    BinOpSplit(toks, a, q, b, rest);
    ShiftInto(toks, [OpenToken], a + ([q] + b + [CloseToken] + rest), 1, l);
    ShiftInto(toks, [OpenToken] + a + [q], b + ([CloseToken] + rest), 2 + |a|, r);
    BinOpIntro(toks, op, l, r);
  }

  /** How the printing of an operator node splits around its operands. */
  lemma BinOpSplit(toks: seq<Token>, a: seq<Token>, q: Token, b: seq<Token>, rest: seq<Token>)
    requires toks == [OpenToken] + a + [q] + b + [CloseToken] + rest
    ensures toks == [OpenToken] + (a + ([q] + b + [CloseToken] + rest))
    ensures toks == ([OpenToken] + a + [q]) + (b + ([CloseToken] + rest))
    ensures |toks| == |a| + |b| + 3 + |rest|
    ensures toks[0] == OpenToken && toks[1 + |a|] == q && toks[2 + |a| + |b|] == CloseToken
  {
  }

  /** The conditions of `PrintedAt` for an operator node, one by one. */
  lemma BinOpIntro(toks: seq<Token>, op: string, l: Node, r: Node)
    requires Width(l) + Width(r) + 3 <= |toks| && toks[0].kind == OpenBracket
    requires PrintedAt(toks, 1, l) && PrintedAt(toks, 2 + Width(l), r)
    requires IsOperatorKind(toks[1 + Width(l)].kind) && AsString(toks[1 + Width(l)].value) == op
    requires toks[2 + Width(l) + Width(r)].kind == CloseBracket
    ensures PrintedAt(toks, 0, BinOp(op, l, r))
  {
  }

  /** `PrintedShift` with the joined sequence and the new index named by the caller. */
  lemma ShiftInto(toks: seq<Token>, pre: seq<Token>, t: seq<Token>, j: nat, e: Node)
    requires toks == pre + t && j == |pre| && PrintedAt(t, 0, e)
    ensures PrintedAt(toks, j, e)
  {
    PrintedShift(pre, t, 0, e);
  }

  // Parsing a printing. `SingleAtomPrinted` and the five level lemmas after it recurse
  // together over the tree; the glue lemmas below them see one level of the parser each.

  /** Parsing a single atom at a printing of `e` yields `e` and stops right after it. */
  lemma {:induction false} SingleAtomPrinted(s: Stream, i: nat, e: Node)
    requires ValidStream(s) && PrintedAt(s.toks, i, e) && i + Width(e) < |s.toks|
    ensures SingleAtom(s, i) == Ok((e, i + Width(e)))
    decreases e, 4
  {
    match e
    case Num(lit) =>
    case Symbol(name) =>
    case FuncCall(name, arg) => FuncCallParsed(s, i, name, arg);
    case Unary(sign, x) => UnaryParsed(s, i, sign, x);
    case BinOp(op, l, r) => BinOpParsed(s, i, op, l, r);
  }

  lemma {:induction false} AtomPrinted(s: Stream, i: nat, e: Node)
    requires ValidStream(s) && PrintedAt(s.toks, i, e) && i + Width(e) < |s.toks|
    requires !StartsAtom(s.toks[i + Width(e)].kind)
    ensures Atom(s, i) == Ok((e, i + Width(e)))
    decreases e, 5
  {
    SingleAtomPrinted(s, i, e);
    AtomOfSingle(s, i, e, i + Width(e));
  }

  lemma {:induction false} PowerPrinted(s: Stream, i: nat, e: Node)
    requires ValidStream(s) && PrintedAt(s.toks, i, e) && i + Width(e) < |s.toks|
    requires EndsPower(s.toks[i + Width(e)].kind)
    ensures Power(s, i) == Ok((e, i + Width(e)))
    decreases e, 6
  {
    AtomPrinted(s, i, e);
    PowerOfAtom(s, i, e, i + Width(e));
  }

  lemma {:induction false} FactorPrinted(s: Stream, i: nat, e: Node)
    requires ValidStream(s) && PrintedAt(s.toks, i, e) && i + Width(e) < |s.toks|
    requires EndsPower(s.toks[i + Width(e)].kind)
    ensures Factor(s, i) == Ok((e, i + Width(e)))
    decreases e, 7
  {
    PowerPrinted(s, i, e);
    PrintedStartsAtom(s.toks, i, e);
    FactorOfPower(s, i, e, i + Width(e));
  }

  lemma {:induction false} TermPrinted(s: Stream, i: nat, e: Node)
    requires ValidStream(s) && PrintedAt(s.toks, i, e) && i + Width(e) < |s.toks|
    requires EndsTerm(s.toks[i + Width(e)].kind)
    ensures Term(s, i) == Ok((e, i + Width(e)))
    decreases e, 8
  {
    FactorPrinted(s, i, e);
    TermOfFactor(s, i, e, i + Width(e));
  }

  lemma {:induction false} ExprPrinted(s: Stream, i: nat, e: Node)
    requires ValidStream(s) && PrintedAt(s.toks, i, e) && i + Width(e) < |s.toks|
    requires EndsExpr(s.toks[i + Width(e)].kind)
    ensures Expr(s, i) == Ok((e, i + Width(e)))
    decreases e, 9
  {
    TermPrinted(s, i, e);
    ExprOfTerm(s, i, e, i + Width(e));
  }

  lemma {:induction false} FuncCallParsed(s: Stream, i: nat, name: string, arg: Node)
    requires ValidStream(s) && PrintedAt(s.toks, i, FuncCall(name, arg)) && i + Width(FuncCall(name, arg)) < |s.toks|
    ensures SingleAtom(s, i) == Ok((FuncCall(name, arg), i + Width(FuncCall(name, arg))))
    decreases FuncCall(name, arg), 3
  {
    ExprPrinted(s, i + 2, arg);
    FuncCallGlue(s, i, name, arg, i + 2 + Width(arg));
  }

  lemma {:induction false} UnaryParsed(s: Stream, i: nat, sign: Kind, x: Node)
    requires ValidStream(s) && PrintedAt(s.toks, i, Unary(sign, x)) && i + Width(Unary(sign, x)) < |s.toks|
    ensures SingleAtom(s, i) == Ok((Unary(sign, x), i + Width(Unary(sign, x))))
    decreases Unary(sign, x), 3
  {
    var j := i + 2 + Width(x);
    SignedParsed(s, i + 1, sign, x, j);
    Bracketed(s, i, Unary(sign, x), j);
  }

  /** A sign before a printing, closed by a bracket, parses as one Expr. */
  lemma {:induction false} SignedParsed(s: Stream, i: nat, sign: Kind, x: Node, j: nat)
    requires ValidStream(s) && j == i + 1 + Width(x) && j < |s.toks|
    requires s.toks[i].kind == sign && (sign == Plus || sign == Minus)
    requires PrintedAt(s.toks, i + 1, x) && s.toks[j].kind == CloseBracket
    ensures Expr(s, i) == Ok((Unary(sign, x), j))
    decreases Unary(sign, x), 2
  {
    PowerPrinted(s, i + 1, x);
    PrintedStartsAtom(s.toks, i + 1, x);
    SignedExpr(s, i, x, j);
  }

  lemma {:induction false} BinOpParsed(s: Stream, i: nat, op: string, l: Node, r: Node)
    requires ValidStream(s) && PrintedAt(s.toks, i, BinOp(op, l, r)) && i + Width(BinOp(op, l, r)) < |s.toks|
    ensures SingleAtom(s, i) == Ok((BinOp(op, l, r), i + Width(BinOp(op, l, r))))
    decreases BinOp(op, l, r), 3
  {
    var j1 := i + 1 + Width(l);
    var j2 := j1 + 1 + Width(r);
    assert PrintedBinOp(s.toks, i, op, l, r);
    OperandsParsed(s, i + 1, op, l, r, j1, j2);
    Bracketed(s, i, BinOp(op, l, r), j2);
  }

  // The operands of a bracketed operator node, printed at `i` and `j1 + 1` and separated by
  // the operator at `j1`, parse as one Expr that stops at the closing bracket at `j2`.

  lemma {:induction false} OperandsParsed(s: Stream, i: nat, op: string, l: Node, r: Node, j1: nat, j2: nat)
    requires ValidStream(s) && j1 == i + Width(l) && j2 == j1 + 1 + Width(r) && j2 < |s.toks|
    requires PrintedAt(s.toks, i, l) && PrintedAt(s.toks, j1 + 1, r)
    requires IsOperatorKind(s.toks[j1].kind) && AsString(s.toks[j1].value) == op
    requires s.toks[j2].kind == CloseBracket
    ensures Expr(s, i) == Ok((BinOp(op, l, r), j2))
    decreases BinOp(op, l, r), 2
  {
    var k := s.toks[j1].kind;
    if k == Pow {
      PowOperandsParsed(s, i, op, l, r, j1, j2);
    } else if k == Mul || k == Div {
      MulOperandsParsed(s, i, op, l, r, j1, j2);
    } else {
      AddOperandsParsed(s, i, op, l, r, j1, j2);
    }
  }

  lemma {:induction false} PowOperandsParsed(s: Stream, i: nat, op: string, l: Node, r: Node, j1: nat, j2: nat)
    requires ValidStream(s) && j1 == i + Width(l) && j2 == j1 + 1 + Width(r) && j2 < |s.toks|
    requires PrintedAt(s.toks, i, l) && PrintedAt(s.toks, j1 + 1, r)
    requires s.toks[j1].kind == Pow && AsString(s.toks[j1].value) == op
    requires s.toks[j2].kind == CloseBracket
    ensures Expr(s, i) == Ok((BinOp(op, l, r), j2))
    decreases BinOp(op, l, r), 1
  {
    AtomPrinted(s, i, l);
    PowRightParsed(s, i, op, l, r, j1, j2);
    PrintedStartsAtom(s.toks, i, l);
    ExprOfPower(s, i, BinOp(op, l, r), j2);
  }

  lemma {:induction false} PowRightParsed(s: Stream, i: nat, op: string, l: Node, r: Node, j1: nat, j2: nat)
    requires ValidStream(s) && i < j1 && j2 == j1 + 1 + Width(r) && j2 < |s.toks| && PrintedAt(s.toks, j1 + 1, r)
    requires s.toks[j1].kind == Pow && AsString(s.toks[j1].value) == op
    requires Atom(s, i) == Ok((l, j1)) && s.toks[j2].kind == CloseBracket
    ensures Power(s, i) == Ok((BinOp(op, l, r), j2))
    decreases BinOp(op, l, r), 0
  {
    PowerPrinted(s, j1 + 1, r);
    PowerStep(s, i, op, l, r, j1, j2);
  }

  lemma {:induction false} MulOperandsParsed(s: Stream, i: nat, op: string, l: Node, r: Node, j1: nat, j2: nat)
    requires ValidStream(s) && j1 == i + Width(l) && j2 == j1 + 1 + Width(r) && j2 < |s.toks|
    requires PrintedAt(s.toks, i, l) && PrintedAt(s.toks, j1 + 1, r)
    requires (s.toks[j1].kind == Mul || s.toks[j1].kind == Div) && AsString(s.toks[j1].value) == op
    requires s.toks[j2].kind == CloseBracket
    ensures Expr(s, i) == Ok((BinOp(op, l, r), j2))
    decreases BinOp(op, l, r), 1
  {
    var e := BinOp(op, l, r);
    FactorPrinted(s, i, l);
    TermStarts(s, i, l, j1);
    MulRightParsed(s, op, l, r, j1, j2);
    ExprOfTerm(s, i, e, j2);
  }

  lemma {:induction false} MulRightParsed(s: Stream, op: string, l: Node, r: Node, j1: nat, j2: nat)
    requires ValidStream(s) && j2 == j1 + 1 + Width(r) && j2 < |s.toks| && PrintedAt(s.toks, j1 + 1, r)
    requires (s.toks[j1].kind == Mul || s.toks[j1].kind == Div) && AsString(s.toks[j1].value) == op
    requires s.toks[j2].kind == CloseBracket
    ensures TermTail(s, l, j1) == Ok((BinOp(op, l, r), j2))
    decreases BinOp(op, l, r), 0
  {
    FactorPrinted(s, j1 + 1, r);
    TermTailStep(s, l, op, r, j1, j2);
    TermTailStops(s, BinOp(op, l, r), j2);
  }

  lemma {:induction false} AddOperandsParsed(s: Stream, i: nat, op: string, l: Node, r: Node, j1: nat, j2: nat)
    requires ValidStream(s) && j1 == i + Width(l) && j2 == j1 + 1 + Width(r) && j2 < |s.toks|
    requires PrintedAt(s.toks, i, l) && PrintedAt(s.toks, j1 + 1, r)
    requires (s.toks[j1].kind == Plus || s.toks[j1].kind == Minus) && AsString(s.toks[j1].value) == op
    requires s.toks[j2].kind == CloseBracket
    ensures Expr(s, i) == Ok((BinOp(op, l, r), j2))
    decreases BinOp(op, l, r), 1
  {
    TermPrinted(s, i, l);
    ExprStarts(s, i, l, j1);
    AddRightParsed(s, op, l, r, j1, j2);
  }

  lemma {:induction false} AddRightParsed(s: Stream, op: string, l: Node, r: Node, j1: nat, j2: nat)
    requires ValidStream(s) && j2 == j1 + 1 + Width(r) && j2 < |s.toks| && PrintedAt(s.toks, j1 + 1, r)
    requires (s.toks[j1].kind == Plus || s.toks[j1].kind == Minus) && AsString(s.toks[j1].value) == op
    requires s.toks[j2].kind == CloseBracket
    ensures ExprTail(s, l, j1) == Ok((BinOp(op, l, r), j2))
    decreases BinOp(op, l, r), 0
  {
    TermPrinted(s, j1 + 1, r);
    ExprTailStep(s, l, op, r, j1, j2);
    ExprTailStops(s, BinOp(op, l, r), j2);
  }

  /** `FUNC ( Expr )` builds a call node. */
  lemma FuncCallGlue(s: Stream, i: nat, name: string, arg: Node, j: nat)
    requires At(s, i) && s.toks[i] == Token(Func, Text(name)) && i + 2 < |s.toks|
    requires s.toks[i + 1].kind == OpenBracket && Expr(s, i + 2) == Ok((arg, j))
    requires s.toks[j].kind == CloseBracket && j + 1 < |s.toks|
    ensures SingleAtom(s, i) == Ok((FuncCall(name, arg), j + 1))
  {
    assert Eat(s, i, Func) == Ok(i + 1);
    assert Eat(s, i + 1, OpenBracket) == Ok(i + 2);
    assert Eat(s, j, CloseBracket) == Ok(j + 1);
  }

  /** Brackets around an Expr create no node. */
  lemma Bracketed(s: Stream, i: nat, e: Node, j: nat)
    requires At(s, i) && s.toks[i].kind == OpenBracket && i + 1 < |s.toks|
    requires Expr(s, i + 1) == Ok((e, j)) && s.toks[j].kind == CloseBracket && j + 1 < |s.toks|
    ensures SingleAtom(s, i) == Ok((e, j + 1))
  {
    assert Eat(s, i, OpenBracket) == Ok(i + 1);
    assert Eat(s, j, CloseBracket) == Ok(j + 1);
  }

  /** One sign before a power: the sign wraps the whole power. */
  lemma SignedFactor(s: Stream, i: nat, x: Node, j: nat)
    requires At(s, i) && (s.toks[i].kind == Plus || s.toks[i].kind == Minus)
    requires i + 1 < |s.toks| && s.toks[i + 1].kind != Plus && s.toks[i + 1].kind != Minus
    requires Power(s, i + 1) == Ok((x, j))
    ensures Factor(s, i) == Ok((Unary(s.toks[i].kind, x), j))
  {
    assert Signs(s, i + 1) == Ok(([], i + 1));
    assert Eat(s, i, s.toks[i].kind) == Ok(i + 1);
    assert [s.toks[i].kind] + [] == [s.toks[i].kind];
    assert Signs(s, i) == Ok(([s.toks[i].kind], i + 1));
    assert Wrap([s.toks[i].kind], x) == Unary(s.toks[i].kind, x);
  }

  /** A signed power before `)` is a whole Expr. */
  lemma SignedExpr(s: Stream, i: nat, x: Node, j: nat)
    requires At(s, i) && (s.toks[i].kind == Plus || s.toks[i].kind == Minus)
    requires i + 1 < |s.toks| && StartsAtom(s.toks[i + 1].kind)
    requires Power(s, i + 1) == Ok((x, j)) && s.toks[j].kind == CloseBracket
    ensures Expr(s, i) == Ok((Unary(s.toks[i].kind, x), j))
  {
    var e := Unary(s.toks[i].kind, x);
    SignedFactor(s, i, x, j);
    TermOfFactor(s, i, e, j);
    ExprOfTerm(s, i, e, j);
  }

  /** A power that starts with an atom and is followed by `)`, `)`-like or EOF is a whole Expr. */
  lemma ExprOfPower(s: Stream, i: nat, e: Node, j: nat)
    requires At(s, i) && Power(s, i) == Ok((e, j)) && StartsAtom(s.toks[i].kind) && EndsExpr(s.toks[j].kind)
    ensures Expr(s, i) == Ok((e, j))
  {
    FactorOfPower(s, i, e, j);
    TermOfFactor(s, i, e, j);
    ExprOfTerm(s, i, e, j);
  }

  // Single steps of the loops of `Power`, `Term` and `Expr`, as equations between calls.

  lemma PowerStep(s: Stream, i: nat, op: string, l: Node, r: Node, j1: nat, j2: nat)
    requires ValidStream(s) && i < j1 < |s.toks| && j1 + 1 < |s.toks|
    requires s.toks[j1].kind == Pow && AsString(s.toks[j1].value) == op
    requires Atom(s, i) == Ok((l, j1)) && Power(s, j1 + 1) == Ok((r, j2))
    ensures Power(s, i) == Ok((BinOp(op, l, r), j2))
  {
  }

  lemma TermStarts(s: Stream, i: nat, l: Node, j: nat)
    requires At(s, i) && Factor(s, i) == Ok((l, j))
    ensures Term(s, i) == TermTail(s, l, j)
  {
  }

  lemma TermTailStep(s: Stream, l: Node, op: string, r: Node, j1: nat, j2: nat)
    requires At(s, j1) && j1 + 1 < |s.toks|
    requires (s.toks[j1].kind == Mul || s.toks[j1].kind == Div) && AsString(s.toks[j1].value) == op
    requires Factor(s, j1 + 1) == Ok((r, j2))
    ensures TermTail(s, l, j1) == TermTail(s, BinOp(op, l, r), j2)
  {
  }

  lemma TermTailStops(s: Stream, l: Node, j: nat)
    requires At(s, j) && EndsTerm(s.toks[j].kind)
    ensures TermTail(s, l, j) == Ok((l, j))
  {
  }

  lemma ExprStarts(s: Stream, i: nat, l: Node, j: nat)
    requires At(s, i) && Term(s, i) == Ok((l, j))
    ensures Expr(s, i) == ExprTail(s, l, j)
  {
  }

  lemma ExprTailStep(s: Stream, l: Node, op: string, r: Node, j1: nat, j2: nat)
    requires At(s, j1) && j1 + 1 < |s.toks|
    requires (s.toks[j1].kind == Plus || s.toks[j1].kind == Minus) && AsString(s.toks[j1].value) == op
    requires Term(s, j1 + 1) == Ok((r, j2))
    ensures ExprTail(s, l, j1) == ExprTail(s, BinOp(op, l, r), j2)
  {
  }

  lemma ExprTailStops(s: Stream, l: Node, j: nat)
    requires At(s, j) && EndsExpr(s.toks[j].kind)
    ensures ExprTail(s, l, j) == Ok((l, j))
  {
  }

  /** Any complete stream whose tokens spell a printing of `e` parses to `e`. */
  lemma ParsePrinted(s: Stream, e: Node)
    requires ValidStream(s) && PrintedAt(s.toks, 0, e)
    requires Width(e) < |s.toks| && s.toks[Width(e)].kind == Eof
    ensures Parse(s) == Ok(e)
  {
    ExprPrinted(s, 0, e);
  }

  /** Parsing undoes bracketed printing: every well-formed tree is recovered from its
      printing, with brackets creating no node. */
  lemma ParseUnparse(e: Node)
    requires WellFormedNode(e)
    ensures ValidStream(Stream(Unparse(e) + [EofToken], None))
    ensures Parse(Stream(Unparse(e) + [EofToken], None)) == Ok(e)
  {
    var s := Stream(Unparse(e) + [EofToken], None);
    UnparsePrinted(e, [EofToken]);
    assert ValidStream(s) by {
      NoEofInPrinting(s.toks, 0, e);
      assert |s.toks| == Width(e) + 1;
    }
    ParsePrinted(s, e);
  }

  /** A printing holds no EOF token. */
  lemma {:induction false} NoEofInPrinting(toks: seq<Token>, i: nat, e: Node)
    requires PrintedAt(toks, i, e)
    ensures forall k :: i <= k < i + Width(e) ==> toks[k].kind != Eof
    decreases e
  {
    match e
    case Num(_) =>
    case Symbol(_) =>
    case FuncCall(_, arg) => NoEofInPrinting(toks, i + 2, arg);
    case Unary(_, x) => NoEofInPrinting(toks, i + 2, x);
    case BinOp(_, l, r) =>
      NoEofInPrinting(toks, i + 1, l);
      NoEofInPrinting(toks, i + 2 + Width(l), r);
  }
  // ---------------------------------------------------------------------------------
  // Single steps the examples are assembled from.

  /** A NUMBER, CONSTANT or VARIABLE token is a whole single atom: CONSTANT reads as a number. */
  lemma LeafAtom(s: Stream, i: nat)
    requires At(s, i) && i + 1 < |s.toks|
    requires s.toks[i].kind == Number || s.toks[i].kind == Constant || s.toks[i].kind == Variable
    ensures s.toks[i].kind == Number ==> SingleAtom(s, i) == Ok((Num(NumberText(s.toks[i].value)), i + 1))
    ensures s.toks[i].kind == Constant ==> SingleAtom(s, i) == Ok((Num(NumberText(s.toks[i].value)), i + 1))
    ensures s.toks[i].kind == Variable ==> SingleAtom(s, i) == Ok((Symbol(AsString(s.toks[i].value)), i + 1))
  {
    assert Eat(s, i, s.toks[i].kind) == Ok(i + 1);
  }

  lemma AtomStarts(s: Stream, i: nat, l: Node, j: nat)
    requires At(s, i) && SingleAtom(s, i) == Ok((l, j))
    ensures Atom(s, i) == AtomTail(s, l, j)
  {
  }

  /** One turn of the implicit-multiplication loop: the next atom is multiplied on the right. */
  lemma AtomTailStep(s: Stream, l: Node, j1: nat, r: Node, j2: nat)
    requires At(s, j1) && StartsAtom(s.toks[j1].kind) && SingleAtom(s, j1) == Ok((r, j2))
    ensures AtomTail(s, l, j1) == AtomTail(s, BinOp("*", l, r), j2)
  {
  }

  lemma AtomTailStops(s: Stream, l: Node, j: nat)
    requires At(s, j) && !StartsAtom(s.toks[j].kind)
    ensures AtomTail(s, l, j) == Ok((l, j))
  {
  }

  /** A sign before a factor wraps that whole factor, so the leftmost sign ends up outermost. */
  lemma FactorSigned(s: Stream, i: nat, x: Node, j: nat)
    requires At(s, i) && (s.toks[i].kind == Plus || s.toks[i].kind == Minus) && i + 1 < |s.toks|
    requires Factor(s, i + 1) == Ok((x, j))
    ensures Factor(s, i) == Ok((Unary(s.toks[i].kind, x), j))
  {
    var k := s.toks[i].kind;
    var sg := Signs(s, i + 1).value;
    var p := Power(s, sg.1).value;
    assert Eat(s, i, k) == Ok(i + 1);
    assert Signs(s, i) == Ok(([k] + sg.0, sg.1));
    WrapOutermost(k, sg.0, p.0);
  }

  /** The Expr at the first token is the whole parse when it stops at EOF; any other token
      it stops at is left-over input. */
  lemma ParseOfExpr(s: Stream, e: Node, j: nat)
    requires ValidStream(s) && 0 < |s.toks| && Expr(s, 0) == Ok((e, j))
    ensures Parse(s) == if s.toks[j].kind == Eof then Ok(e) else Err(TrailingInput(s.toks[j].kind))
  {
  }

  /** A failure at the first Power of an unsigned stream is the failure of the parse. */
  lemma ParseFailsAtPower(s: Stream, err: ParseError)
    requires ValidStream(s) && 0 < |s.toks| && s.toks[0].kind != Plus && s.toks[0].kind != Minus
    requires Power(s, 0) == Err(err)
    ensures Parse(s) == Err(err)
  {
    assert Signs(s, 0) == Ok(([], 0));
    assert Factor(s, 0) == Err(err);
    assert Term(s, 0) == Err(err);
    assert Expr(s, 0) == Err(err);
  }

  /** A failing single atom fails its Atom and its Power. */
  lemma PowerFailsAtAtom(s: Stream, i: nat, err: ParseError)
    requires At(s, i) && SingleAtom(s, i) == Err(err)
    ensures Power(s, i) == Err(err)
  {
    assert Atom(s, i) == Err(err);
  }

  // ---------------------------------------------------------------------------------
  // What the parser rejects.

  /** A successful parse has consumed every token: its Expr stops at the final EOF. */
  lemma ParseConsumesAll(s: Stream)
    requires ValidStream(s) && Parse(s).Ok?
    ensures Expr(s, 0) == Ok((Parse(s).value, |s.toks| - 1))
  {
    var e := Expr(s, 0).value;
    assert s.toks[e.1].kind == Eof;
  }

  /** On the lexer's output, input left over after a complete expression can only be an
      unmatched `)`: the other kind a complete Expr stops at, CONSTANT, is never lexed. */
  lemma TrailingOnlyClose(text: string)
    requires ParseText(text).Err? && ParseText(text).error.TrailingInput?
    ensures ParseText(text).error.got == CloseBracket
  {
    var s := Tokenize(text);
    var e := Expr(s, 0).value;
    assert WellFormed(s.toks[e.1]);
  }

  /** FUNC must be followed by `(`: on any other token `eat(LPAREN)` fails. */
  lemma FuncNeedsBracket(s: Stream, i: nat)
    requires At(s, i) && s.toks[i].kind == Func && i + 1 < |s.toks|
    requires s.toks[i + 1].kind != OpenBracket
    ensures SingleAtom(s, i) == Err(Expected(OpenBracket, s.toks[i + 1].kind))
  {
    assert Eat(s, i, Func) == Ok(i + 1);
  }

  /** The right operand of `^` is parsed as a Power, whose first part is an Atom, so a sign
      right after `^` is rejected. */
  lemma NoSignAfterPow(s: Stream, i: nat, a: Node, j: nat)
    requires At(s, i) && Atom(s, i) == Ok((a, j)) && s.toks[j].kind == Pow && j + 1 < |s.toks|
    requires s.toks[j + 1].kind == Plus || s.toks[j + 1].kind == Minus
    ensures Power(s, i) == Err(UnexpectedToken(s.toks[j + 1].kind))
  {
    var k := s.toks[j + 1].kind;
    assert SingleAtom(s, j + 1) == Err(UnexpectedToken(k));
    assert Atom(s, j + 1) == Err(UnexpectedToken(k));
    assert Power(s, j + 1) == Err(UnexpectedToken(k));
    assert Eat(s, j, Pow) == Ok(j + 1);
  }
}
