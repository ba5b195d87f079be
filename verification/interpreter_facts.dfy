/** What the evaluator computes, stated without its case analysis on runtime types: a tree
    whose operands are all numbers is computed (to a number, or to the `Complex` of a `log`,
    `ln` or `sqrt` at its root), every other tree is a string spelled by `Render`, and every
    variable of the tree survives into that string. */
module InterpreterFacts {

  import opened Results
  import opened Tokens
  import opened Lexer
  import opened Ast
  import opened Parser
  import opened Interpreter

  // ---------------------------------------------------------------------------------
  // A reference reading of `visit`, split by the shape of the tree and by which subtrees
  // are computed, instead of by the JavaScript type of each intermediate value.

  /** A tree the source computes rather than writes out: it has no variable, and every
      operand of its root evaluates to a JavaScript number (not to a mathjs `Complex`). */
  predicate Computed<N, C>(k: Kernel<N, C>, e: Node)
    requires WellFormedNode(e)
    decreases e, 0
  {
    match e
    case Num(_) => true
    case Symbol(_) => false
    case FuncCall(_, arg) => Computed(k, arg) && Value(k, arg).Numeric?
    case Unary(_, x) => Computed(k, x) && Value(k, x).Numeric?
    case BinOp(_, l, r) => Computed(k, l) && Value(k, l).Numeric? && Computed(k, r) && Value(k, r).Numeric?
  }

  /** A tree that evaluates to a JavaScript number. */
  predicate IsNumber<N, C>(k: Kernel<N, C>, e: Node)
    requires WellFormedNode(e)
    decreases e, 2
  {
    Computed(k, e) && Value(k, e).Numeric?
  }

  /** What a computed tree stands for: a number, or the `Complex` that `log`, `ln` or
      `sqrt` returns at the root. */
  function Value<N, C>(k: Kernel<N, C>, e: Node): Val<N, C>
    requires WellFormedNode(e) && Computed(k, e)
    decreases e, 1
  {
    match e
    case Num(lit) => Numeric(k.literal(lit))
    case FuncCall(name, arg) => Apply(k, name, Value(k, arg).n).value
    case Unary(sign, x) => Numeric(if sign == Minus then k.neg(Value(k, x).n) else Value(k, x).n)
    case BinOp(op, l, r) => Numeric(Arith(k, op, Value(k, l).n, Value(k, r).n).value)
  }

  /** The text of a tree the source writes out: operands in order and without brackets, a
      product written by juxtaposition exactly when one factor is a number and the other is
      written out. */
  function Render<N, C>(k: Kernel<N, C>, e: Node): string
    requires WellFormedNode(e) && !Computed(k, e)
    decreases e, 4
  {
    match e
    case Symbol(name) => name
    case FuncCall(name, arg) => name + "(" + Operand(k, arg) + ")"
    case Unary(sign, x) => (if sign == Minus then "-" else "+") + Operand(k, x)
    case BinOp(op, l, r) =>
      if op == "*" && ((IsNumber(k, l) && !Computed(k, r)) || (!Computed(k, l) && IsNumber(k, r)))
      then Operand(k, l) + Operand(k, r)
      else Operand(k, l) + " " + op + " " + Operand(k, r)
    case Num(_) => assert false; ""
  }

  /** How a subtree appears inside the text of a bigger one. */
  function Operand<N, C>(k: Kernel<N, C>, e: Node): string
    requires WellFormedNode(e)
    decreases e, 5
  {
    if Computed(k, e) then Str(k, Value(k, e)) else Render(k, e)
  }

  /** The value the reference reading gives a tree. */
  function Meaning<N, C>(k: Kernel<N, C>, e: Node): Val<N, C>
    requires WellFormedNode(e)
  {
    if Computed(k, e) then Value(k, e) else Symbolic(Render(k, e))
  }

  /** A subtree appears in a bigger text as its value does. */
  lemma OperandOfMeaning<N, C>(k: Kernel<N, C>, e: Node)
    requires WellFormedNode(e)
    ensures Operand(k, e) == Str(k, Meaning(k, e))
  {
  }

  lemma BinOpMeaning<N, C>(k: Kernel<N, C>, op: string, l: Node, r: Node)
    requires WellFormedNode(BinOp(op, l, r))
    ensures EvalBinOp(k, op, Meaning(k, l), Meaning(k, r)) == Ok(Meaning(k, BinOp(op, l, r)))
  {
    OperandOfMeaning(k, l);
    OperandOfMeaning(k, r);
  }

  lemma UnaryMeaning<N, C>(k: Kernel<N, C>, sign: Kind, x: Node)
    requires WellFormedNode(Unary(sign, x))
    ensures EvalUnary(k, sign, Meaning(k, x)) == Meaning(k, Unary(sign, x))
  {
    OperandOfMeaning(k, x);
  }

  lemma FuncCallMeaning<N, C>(k: Kernel<N, C>, name: string, arg: Node)
    requires WellFormedNode(FuncCall(name, arg))
    ensures EvalFunc(k, name, Meaning(k, arg)) == Ok(Meaning(k, FuncCall(name, arg)))
  {
    OperandOfMeaning(k, arg);
  }

  /** Evaluation agrees with the reference reading on every tree the parser can build. */
  lemma {:induction false} EvalMeaning<N, C>(k: Kernel<N, C>, e: Node)
    requires WellFormedNode(e)
    ensures Eval(k, e) == Ok(Meaning(k, e))
    decreases e
  {
    match e
    case Num(_) =>
    case Symbol(_) =>
    case FuncCall(name, arg) => EvalMeaning(k, arg); FuncCallMeaning(k, name, arg);
    case Unary(sign, x) => EvalMeaning(k, x); UnaryMeaning(k, sign, x);
    case BinOp(op, l, r) => EvalMeaning(k, l); EvalMeaning(k, r); BinOpMeaning(k, op, l, r);
  }

  /** A tree with a variable is written out. */
  lemma {:induction false} SymbolWrittenOut<N, C>(k: Kernel<N, C>, e: Node)
    requires WellFormedNode(e) && HasSymbol(e)
    ensures !Computed(k, e)
    decreases e
  {
    match e
    case Symbol(_) =>
    case FuncCall(_, arg) => SymbolWrittenOut(k, arg);
    case Unary(_, x) => SymbolWrittenOut(k, x);
    case BinOp(_, l, r) => if HasSymbol(l) { SymbolWrittenOut(k, l); } else { SymbolWrittenOut(k, r); }
  }

  /** When `log`, `ln` and `sqrt` never return a `Complex` (as under mathjs's `predictable`
      option, or when every argument they meet is `>= 0`), a tree is computed exactly when
      it has no variable, and then it is a number. */
  lemma {:induction false} ComputedWithoutComplex<N(!new), C>(k: Kernel<N, C>, e: Node)
    requires WellFormedNode(e) && forall f, x :: k.branch(f, x).RealValue?
    ensures Computed(k, e) <==> !HasSymbol(e)
    ensures Computed(k, e) ==> Value(k, e).Numeric?
    decreases e
  {
    match e
    case Num(_) =>
    case Symbol(_) =>
    case FuncCall(_, arg) => ComputedWithoutComplex(k, arg);
    case Unary(_, x) => ComputedWithoutComplex(k, x);
    case BinOp(_, l, r) => ComputedWithoutComplex(k, l); ComputedWithoutComplex(k, r);
  }

  /** Under the same condition, evaluation returns a number exactly when the tree has no
      variable. */
  lemma NumberExactlyWithoutVariable<N(!new), C>(k: Kernel<N, C>, e: Node)
    requires WellFormedNode(e) && forall f, x :: k.branch(f, x).RealValue?
    ensures Eval(k, e).Ok? && (Eval(k, e).value.Numeric? <==> !HasSymbol(e))
  {
    EvalMeaning(k, e);
    ComputedWithoutComplex(k, e);
  }

  // ---------------------------------------------------------------------------------
  // Variables survive into the text.

  /** Variable `v` occurs somewhere in the tree. */
  predicate Occurs(v: string, e: Node) {
    match e
    case Num(_) => false
    case Symbol(name) => name == v
    case FuncCall(_, arg) => Occurs(v, arg)
    case Unary(_, x) => Occurs(v, x)
    case BinOp(_, l, r) => Occurs(v, l) || Occurs(v, r)
  }

  /** `a` is the piece of `b` that starts at index `i`. */
  predicate PieceAt(a: string, b: string, i: nat) {
    i + |a| <= |b| && b[i..i + |a|] == a
  }

  /** `a` appears in `b` as a contiguous piece. */
  ghost predicate Infix(a: string, b: string) {
    exists i: nat :: PieceAt(a, b, i)
  }

  lemma InfixLeft(a: string, b: string, c: string)
    requires Infix(a, b)
    ensures Infix(a, b + c)
  {
    var i: nat :| PieceAt(a, b, i);
    assert (b + c)[i..i + |a|] == b[i..i + |a|];
    assert PieceAt(a, b + c, i);
  }

  lemma InfixRight(a: string, b: string, c: string)
    requires Infix(a, c)
    ensures Infix(a, b + c)
  {
    var i: nat :| PieceAt(a, c, i);
    assert (b + c)[|b| + i..|b| + i + |a|] == c[i..i + |a|];
    assert PieceAt(a, b + c, |b| + i);
  }

  /** A tree in which `v` occurs has a variable. */
  lemma {:induction false} OccursHasSymbol(v: string, e: Node)
    requires Occurs(v, e)
    ensures HasSymbol(e)
    decreases e
  {
    match e
    case Symbol(_) =>
    case FuncCall(_, arg) => OccursHasSymbol(v, arg);
    case Unary(_, x) => OccursHasSymbol(v, x);
    case BinOp(_, l, r) => if Occurs(v, l) { OccursHasSymbol(v, l); } else { OccursHasSymbol(v, r); }
  }

  /** Every variable of the tree is spelled out in its text. */
  lemma {:induction false} RenderKeepsVariables<N, C>(k: Kernel<N, C>, e: Node, v: string)
    requires WellFormedNode(e) && Occurs(v, e)
    ensures !Computed(k, e) && Infix(v, Render(k, e))
    decreases e
  {
    OccursHasSymbol(v, e);
    SymbolWrittenOut(k, e);
    match e
    case Symbol(name) =>
      assert PieceAt(v, Render(k, e), 0);
    case FuncCall(name, arg) =>
      RenderKeepsVariables(k, arg, v);
      InfixRight(v, name + "(", Render(k, arg));
      InfixLeft(v, name + "(" + Render(k, arg), ")");
    case Unary(sign, x) =>
      RenderKeepsVariables(k, x, v);
      InfixRight(v, if sign == Minus then "-" else "+", Render(k, x));
    case BinOp(op, l, r) =>
      var ls, rs := Operand(k, l), Operand(k, r);
      if Occurs(v, l) {
        RenderKeepsVariables(k, l, v);
        InfixLeft(v, ls, rs);
        InfixLeft(v, ls, " ");
        InfixLeft(v, ls + " ", op);
        InfixLeft(v, ls + " " + op, " ");
        InfixLeft(v, ls + " " + op + " ", rs);
      } else {
        RenderKeepsVariables(k, r, v);
        InfixRight(v, ls, rs);
        InfixRight(v, ls + " " + op + " ", rs);
      }
  }

  /** Evaluating a tree in which `v` occurs yields a string that contains `v`. */
  lemma VariablesSurvive<N, C>(k: Kernel<N, C>, e: Node, v: string)
    requires WellFormedNode(e) && Occurs(v, e)
    ensures Eval(k, e).Ok? && Eval(k, e).value.Symbolic? && Infix(v, Eval(k, e).value.s)
  {
    RenderKeepsVariables(k, e, v);
    EvalMeaning(k, e);
  }

  // ---------------------------------------------------------------------------------
  // The spelling of symbolic results.

  /** A number times a variable is written without an operator. */
  lemma NumberTimesVariable<N, C>(k: Kernel<N, C>)
    ensures Eval(k, BinOp("*", Num("2"), Symbol("x"))) == Ok(Symbolic(k.show(k.literal("2")) + "x"))
    ensures Eval(k, BinOp("*", Symbol("x"), Num("2"))) == Ok(Symbolic("x" + k.show(k.literal("2"))))
  {
  }

  /** Two variables keep the spaced `*`. */
  lemma VariableTimesVariable<N, C>(k: Kernel<N, C>)
    ensures Eval(k, BinOp("*", Symbol("x"), Symbol("y"))) == Ok(Symbolic("x * y"))
  {
    assert EvalBinOp(k, "*", Symbolic("x"), Symbolic("y")) == Ok(Symbolic("x" + " " + "*" + " " + "y"));
    assert "x" + " " + "*" + " " + "y" == "x * y";
  }

  /** Brackets are not written, so `x - (y - z)` and `(x - y) - z` read the same. */
  lemma GroupingNotWritten<N, C>(k: Kernel<N, C>)
    ensures Eval(k, BinOp("-", Symbol("x"), BinOp("-", Symbol("y"), Symbol("z")))) == Ok(Symbolic("x - y - z"))
    ensures Eval(k, BinOp("-", BinOp("-", Symbol("x"), Symbol("y")), Symbol("z"))) == Ok(Symbolic("x - y - z"))
  {
    assert Eval(k, BinOp("-", Symbol("y"), Symbol("z"))) == Ok(Symbolic("y" + " " + "-" + " " + "z"));
    assert Eval(k, BinOp("-", Symbol("x"), Symbol("y"))) == Ok(Symbolic("x" + " " + "-" + " " + "y"));
    assert EvalBinOp(k, "-", Symbolic("x"), Symbolic("y - z")) == Ok(Symbolic("x" + " " + "-" + " " + "y - z"));
    assert EvalBinOp(k, "-", Symbolic("x - y"), Symbolic("z")) == Ok(Symbolic("x - y" + " " + "-" + " " + "z"));
    assert "y" + " " + "-" + " " + "z" == "y - z" && "x" + " " + "-" + " " + "y" == "x - y";
    assert "x" + " " + "-" + " " + "y - z" == "x - y - z" && "x - y" + " " + "-" + " " + "z" == "x - y - z";
  }

  /** Juxtaposition glues a symbolic sum to the number after it: `(x + 1) * 2` reads `x + 12`. */
  lemma SumTimesNumber<N, C>(k: Kernel<N, C>)
    requires k.show(k.literal("1")) == "1" && k.show(k.literal("2")) == "2"
    ensures Eval(k, BinOp("*", BinOp("+", Symbol("x"), Num("1")), Num("2"))) == Ok(Symbolic("x + 12"))
  {
    var one, two := Numeric(k.literal("1")), Numeric(k.literal("2"));
    assert EvalBinOp(k, "+", Symbolic("x"), one) == Ok(Symbolic("x" + " " + "+" + " " + "1"));
    assert "x" + " " + "+" + " " + "1" == "x + 1";
    assert EvalBinOp(k, "*", Symbolic("x + 1"), two) == Ok(Symbolic("x + 1" + "2"));
    assert "x + 1" + "2" == "x + 12";
  }

  /** A function of a symbolic argument is written as a call; of a numeric one, it is applied. */
  lemma FunctionResults<N, C>(k: Kernel<N, C>)
    ensures Eval(k, FuncCall("sin", Symbol("x"))) == Ok(Symbolic("sin(x)"))
    ensures Eval(k, FuncCall("sin", BinOp("+", Num("2"), Num("3"))))
            == Ok(Numeric(k.math(Sin, k.add(k.literal("2"), k.literal("3")))))
    ensures Eval(k, FuncCall("cosec", Num("2"))) == Ok(Numeric(k.div(k.literal("1"), k.math(Sin, k.literal("2")))))
  {
    assert EvalFunc(k, "sin", Symbolic("x")) == Ok(Symbolic("sin" + "(" + "x" + ")"));
    assert "sin" + "(" + "x" + ")" == "sin(x)";
    assert Eval(k, BinOp("+", Num("2"), Num("3"))) == Ok(Numeric(k.add(k.literal("2"), k.literal("3"))));
    assert Apply(k, "sin", k.add(k.literal("2"), k.literal("3"))) == Ok(Numeric(k.math(Sin, k.add(k.literal("2"), k.literal("3")))));
    assert Apply(k, "cosec", k.literal("2")) == Ok(Numeric(k.div(k.literal("1"), k.math(Sin, k.literal("2")))));
  }

  /** A sign before a symbolic operand is written in front of it. */
  lemma SignedVariable<N, C>(k: Kernel<N, C>)
    ensures Eval(k, Unary(Minus, Symbol("x"))) == Ok(Symbolic("-x"))
    ensures Eval(k, Unary(Plus, Unary(Minus, Symbol("x")))) == Ok(Symbolic("+-x"))
  {
    assert EvalUnary(k, Minus, Symbolic("x")) == Symbolic("-" + "x");
    assert "-" + "x" == "-x";
    assert EvalUnary(k, Plus, Symbolic("-x")) == Symbolic("+" + "-x");
    assert "+" + "-x" == "+-x";
  }

  /** An operator outside the five is only refused between two numbers; with a variable
      it is written out like any other. */
  lemma UnknownOperator<N, C>(k: Kernel<N, C>)
    ensures Eval(k, BinOp("%", Num("7"), Num("2"))) == Err(UnsupportedOperator("%"))
    ensures Eval(k, BinOp("%", Symbol("x"), Num("2"))) == Ok(Symbolic("x % " + k.show(k.literal("2"))))
  {
    assert Arith(k, "%", k.literal("7"), k.literal("2")) == Err(UnsupportedOperator("%"));
    var two := k.show(k.literal("2"));
    assert EvalBinOp(k, "%", Symbolic("x"), Numeric(k.literal("2"))) == Ok(Symbolic("x" + " " + "%" + " " + two));
    assert "x" + " " + "%" + " " + two == "x % " + two;
  }

  /** `sqrt(-4)`, where mathjs returns a `Complex`, which is neither a number nor a string.
      It is returned as is at the root; as an operand it is written out, with the spaced `*`
      even next to a number or a variable, and a sign or a function is written in front of
      it. */
  lemma ComplexWrittenOut<N, C>(k: Kernel<N, C>)
    requires k.branch(Sqrt, k.neg(k.literal("4"))).ComplexValue?
    ensures var root := FuncCall("sqrt", Unary(Minus, Num("4")));
            var z := k.showComplex(k.branch(Sqrt, k.neg(k.literal("4"))).z);
            && Eval(k, root) == Ok(Complex(k.branch(Sqrt, k.neg(k.literal("4"))).z))
            && Eval(k, BinOp("*", root, Symbol("x"))) == Ok(Symbolic(z + " * x"))
            && Eval(k, BinOp("*", root, Num("2"))) == Ok(Symbolic(z + " * " + k.show(k.literal("2"))))
            && Eval(k, Unary(Minus, root)) == Ok(Symbolic("-" + z))
            && Eval(k, FuncCall("sin", root)) == Ok(Symbolic("sin(" + z + ")"))
  {
    var m := k.branch(Sqrt, k.neg(k.literal("4")));
    var root := FuncCall("sqrt", Unary(Minus, Num("4")));
    assert Apply(k, "sqrt", k.neg(k.literal("4"))) == Ok(Complex(m.z));
    var z := k.showComplex(m.z);
    assert EvalBinOp(k, "*", Complex(m.z), Symbolic("x")) == Ok(Symbolic(z + " " + "*" + " " + "x"));
    assert z + " " + "*" + " " + "x" == z + " * x";
    var two := k.show(k.literal("2"));
    assert EvalBinOp(k, "*", Complex(m.z), Numeric(k.literal("2"))) == Ok(Symbolic(z + " " + "*" + " " + two));
    assert z + " " + "*" + " " + two == z + " * " + two;
    assert EvalFunc(k, "sin", Complex(m.z)) == Ok(Symbolic("sin" + "(" + z + ")"));
    assert "sin" + "(" + z + ")" == "sin(" + z + ")";
  }

  /** With mathjs as `create(all)` sets it up, `sqrt` of a negative number is a `Complex`
      and `sqrt` of NaN (`sqrt(0/0)`) is the number NaN, so `sqrt(-4)` is written out as
      an operand while `sqrt(0/0)` is computed with. */
  lemma DefaultSqrt<N(!new), C>(k: Kernel<N, C>)
    requires Unpredictable(k)
    requires !k.nonNegative(k.neg(k.literal("4"))) && !k.isNaN(k.neg(k.literal("4")))
    ensures Eval(k, FuncCall("sqrt", Unary(Minus, Num("4")))).value.Complex?
    ensures k.isNaN(k.div(k.literal("0"), k.literal("0"))) ==>
              Eval(k, FuncCall("sqrt", BinOp("/", Num("0"), Num("0")))).value.Numeric?
  {
    ComplexWrittenOut(k);
    var nan := k.div(k.literal("0"), k.literal("0"));
    assert Eval(k, BinOp("/", Num("0"), Num("0"))) == Ok(Numeric(nan));
  }

  // ---------------------------------------------------------------------------------
  // Plain arithmetic.

  /** No `log`, `ln` or `sqrt` is called anywhere in the tree. */
  predicate NoBranchCall(e: Node) {
    match e
    case Num(_) => true
    case Symbol(_) => true
    case FuncCall(name, arg) => name !in BranchNames && NoBranchCall(arg)
    case Unary(_, x) => NoBranchCall(x)
    case BinOp(_, l, r) => NoBranchCall(l) && NoBranchCall(r)
  }

  /** Whatever mathjs's configuration, a tree without variables and without a `log`, `ln`
      or `sqrt` call is computed, to a number. */
  lemma {:induction false} PlainArithmetic<N, C>(k: Kernel<N, C>, e: Node)
    requires WellFormedNode(e) && !HasSymbol(e) && NoBranchCall(e)
    ensures Computed(k, e) && Value(k, e).Numeric?
    ensures Eval(k, e).Ok? && Eval(k, e).value.Numeric?
    decreases e
  {
    match e {
      case Num(_) =>
      case FuncCall(_, arg) => PlainArithmetic(k, arg);
      case Unary(_, x) => PlainArithmetic(k, x);
      case BinOp(_, l, r) => PlainArithmetic(k, l); PlainArithmetic(k, r);
    }
    EvalMeaning(k, e);
  }

  // ---------------------------------------------------------------------------------
  // From text.

  /** `interpret` fails exactly when parsing fails, and otherwise means the reference reading
      of the parsed tree. */
  lemma InterpretMeaning<N, C>(k: Kernel<N, C>, text: string)
    ensures Interpret(k, text).Ok? <==> ParseText(text).Ok?
    ensures ParseText(text).Err? ==> Interpret(k, text) == Err(SyntaxError(ParseText(text).error))
    ensures ParseText(text).Ok? ==>
              var e := ParseText(text).value;
              WellFormedNode(e) &&
              Interpret(k, text).value == Meaning(k, e)
  {
    var s := Tokenize(text);
    if ParseText(text).Ok? {
      assert AllWellFormed(s) by {
        forall i | 0 <= i < |s.toks| ensures TokenOk(s, i) {
          assert WellFormed(s.toks[i]);
        }
      }
      EvalMeaning(k, ParseText(text).value);
    }
  }

  /** Interpreting a text whose parse is known is evaluating that tree. */
  lemma InterpretOf<N, C>(k: Kernel<N, C>, text: string, e: Node)
    requires ParseText(text) == Ok(e)
    ensures WellFormedNode(e) && Eval(k, e).Ok? && Interpret(k, text) == Ok(Eval(k, e).value)
  {
    InterpretMeaning(k, text);
  }
}
