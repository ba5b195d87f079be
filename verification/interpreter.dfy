/** The tree-walking evaluator of src/Interpreter/index.ts.

    JavaScript numbers, their arithmetic, the mathjs functions and the `toString` of numbers
    and of mathjs `Complex` objects are floating point and foreign code, so they are a
    parameter: a `Kernel` over an abstract number type `N` and an abstract complex type `C`.
    What the model fixes is everything else: which results are numbers, which are mathjs
    `Complex` objects and which are symbolic strings, and exactly how symbolic strings are
    spelled. */
module Interpreter {

  import opened Results
  import opened Tokens
  import opened Ast
  import opened Parser

  /** The mathjs functions whose value at a JavaScript number is always a number. */
  datatype RealFn = Sin | Cos | Tan | Abs | Exp

  /** The mathjs functions that, in the default configuration `create(all)` gives
      (`predictable: false`), return a `Complex` object where no real result exists. */
  datatype BranchFn = Log10 | Log | Sqrt

  /** What `math.log10`, `math.log` and `math.sqrt` return on a number. */
  datatype MathValue<N, C> = RealValue(x: N) | ComplexValue(z: C)

  /** The numeric operations the source takes from JavaScript and mathjs. */
  datatype Kernel<!N, !C> = Kernel(
    literal: string -> N,                    // the number of a numeric literal (`parseInt` / `parseFloat`)
    add: (N, N) -> N,                        // `+`
    sub: (N, N) -> N,                        // `-`
    mul: (N, N) -> N,                        // `*`
    div: (N, N) -> N,                        // `/`
    pow: (N, N) -> N,                        // `Math.pow`
    neg: N -> N,                             // unary `-`
    math: (RealFn, N) -> N,                  // `math.sin`, `math.cos`, `math.tan`, `math.abs`, `math.exp`
    branch: (BranchFn, N) -> MathValue<N, C>,  // `math.log10`, `math.log`, `math.sqrt`
    nonNegative: N -> bool,                  // `x >= 0`
    isNaN: N -> bool,                        // `isNaN(x)`
    show: N -> string,                       // `Number.prototype.toString`
    showComplex: C -> string)                // `Complex.prototype.toString`, as a template literal calls it

  /** mathjs as `create(all)` configures it. `log10` and `log` return a `Complex` exactly
      when the argument is not `>= 0` (a negative number, or NaN). `sqrt` first returns NaN
      for NaN, so it returns a `Complex` exactly for a negative number. */
  ghost predicate Unpredictable<N(!new), C>(k: Kernel<N, C>) {
    && (forall x :: k.branch(Log10, x).ComplexValue? <==> !k.nonNegative(x))
    && (forall x :: k.branch(Log, x).ComplexValue? <==> !k.nonNegative(x))
    && (forall x :: k.branch(Sqrt, x).ComplexValue? <==> !k.nonNegative(x) && !k.isNaN(x))
  }

  /** The names whose numeric call may return a `Complex`. */
  const BranchNames: seq<string> := ["log", "ln", "sqrt"]

  /** What an evaluation returns: `typeof` is `'number'` or `'string'`, or the value is a
      mathjs `Complex`, which is neither. */
  datatype Val<N, C> = Numeric(n: N) | Symbolic(s: string) | Complex(z: C)

  /** The defensive faults of the evaluator. */
  datatype EvalError = UnsupportedOperator(op: string) | UnknownFunction(name: string)

  /** `leftStr` / `rightStr`, and any value inside a template literal: a value as it
      appears inside a symbolic string. */
  function Str<N, C>(k: Kernel<N, C>, v: Val<N, C>): string {
    match v
    case Numeric(n) => k.show(n)
    case Symbolic(s) => s
    case Complex(z) => k.showComplex(z)
  }

  /** The arithmetic of `visit_BinOpr` on two numbers. */
  function Arith<N, C>(k: Kernel<N, C>, op: string, a: N, b: N): (r: Result<N, EvalError>)
    ensures r.Ok? <==> op in Operators
  {
    if op == "+" then Ok(k.add(a, b))
    else if op == "-" then Ok(k.sub(a, b))
    else if op == "*" then Ok(k.mul(a, b))
    else if op == "/" then Ok(k.div(a, b))
    else if op == "^" then Ok(k.pow(a, b))
    else Err(UnsupportedOperator(op))
  }

  /** `visit_BinOpr` once both operands are evaluated. */
  function EvalBinOp<N, C>(k: Kernel<N, C>, op: string, left: Val<N, C>, right: Val<N, C>)
    : (r: Result<Val<N, C>, EvalError>)
    ensures r.Ok? ==> !r.value.Complex? && (r.value.Numeric? <==> left.Numeric? && right.Numeric?)
    ensures r.Err? ==> left.Numeric? && right.Numeric? && op !in Operators
  {
    if left.Numeric? && right.Numeric? then
      var n :- Arith(k, op, left.n, right.n);
      Ok(Numeric(n))
    else
      var leftStr := Str(k, left);
      var rightStr := Str(k, right);
      if op == "*" && left.Numeric? && right.Symbolic? then Ok(Symbolic(leftStr + rightStr))
      else if op == "*" && left.Symbolic? && right.Numeric? then Ok(Symbolic(leftStr + rightStr))
      else Ok(Symbolic(leftStr + " " + op + " " + rightStr))
  }

  /** `visit_UnaryOpr` once the operand is evaluated. */
  function EvalUnary<N, C>(k: Kernel<N, C>, sign: Kind, v: Val<N, C>): (r: Val<N, C>)
    ensures !r.Complex? && (r.Numeric? <==> v.Numeric?)
  {
    match v
    case Numeric(n) => Numeric(if sign == Minus then k.neg(n) else n)
    case _ => Symbolic((if sign == Minus then "-" else "+") + Str(k, v))
  }

  /** A mathjs result as an evaluation value. */
  function FromMath<N, C>(m: MathValue<N, C>): (r: Val<N, C>)
    ensures !r.Symbolic?
  {
    match m
    case RealValue(x) => Numeric(x)
    case ComplexValue(z) => Complex(z)
  }

  /** The numeric branch of `visit_FuncNode`; `cosec` and `sec` are reciprocals. */
  function Apply<N, C>(k: Kernel<N, C>, name: string, x: N): (r: Result<Val<N, C>, EvalError>)
    ensures r.Ok? <==> name in FuncNames
    ensures r.Ok? ==> !r.value.Symbolic?
    ensures r.Ok? && r.value.Complex? ==> name in BranchNames
  {
    if name == "sin" then Ok(Numeric(k.math(Sin, x)))
    else if name == "cos" then Ok(Numeric(k.math(Cos, x)))
    else if name == "tan" then Ok(Numeric(k.math(Tan, x)))
    else if name == "cosec" then Ok(Numeric(k.div(k.literal("1"), k.math(Sin, x))))
    else if name == "sec" then Ok(Numeric(k.div(k.literal("1"), k.math(Cos, x))))
    else if name == "abs" then Ok(Numeric(k.math(Abs, x)))
    else if name == "log" then Ok(FromMath(k.branch(Log10, x)))
    else if name == "ln" then Ok(FromMath(k.branch(Log, x)))
    else if name == "exp" then Ok(Numeric(k.math(Exp, x)))
    else if name == "sqrt" then Ok(FromMath(k.branch(Sqrt, x)))
    else Err(UnknownFunction(name))
  }

  /** `visit_FuncNode` once the argument is evaluated. */
  function EvalFunc<N, C>(k: Kernel<N, C>, name: string, v: Val<N, C>): (r: Result<Val<N, C>, EvalError>)
    ensures r.Ok? ==> (r.value.Symbolic? <==> !v.Numeric?)
    ensures r.Ok? && r.value.Complex? ==> v.Numeric? && name in BranchNames
    ensures r.Err? ==> v.Numeric? && name !in FuncNames
  {
    match v
    case Numeric(x) => Apply(k, name, x)
    case _ => Ok(Symbolic(name + "(" + Str(k, v) + ")"))
  }

  /** `visit`: the tree walk, operands first, left before right. */
  function Eval<N, C>(k: Kernel<N, C>, e: Node): (r: Result<Val<N, C>, EvalError>)
    ensures r.Ok? && HasSymbol(e) ==> r.value.Symbolic?
    ensures r.Ok? && r.value.Complex? ==> e.FuncCall? && e.name in BranchNames
    ensures WellFormedNode(e) ==> r.Ok?
    decreases e
  {
    match e
    case Num(lit) => Ok(Numeric(k.literal(lit)))
    case Symbol(name) => Ok(Symbolic(name))
    case BinOp(op, left, right) =>
      var lv :- Eval(k, left);
      var rv :- Eval(k, right);
      EvalBinOp(k, op, lv, rv)
    case Unary(sign, x) =>
      var v :- Eval(k, x);
      Ok(EvalUnary(k, sign, v))
    case FuncCall(name, arg) =>
      var v :- Eval(k, arg);
      EvalFunc(k, name, v)
  }

  datatype Error = SyntaxError(parse: ParseError) | RuntimeError(eval: EvalError)

  /** `interpret`: parses the whole text, then evaluates the tree. */
  function Interpret<N, C>(k: Kernel<N, C>, text: string): (r: Result<Val<N, C>, Error>)
    ensures r.Err? ==> r.error.SyntaxError?
  {
    match ParseText(text)
    case Err(e) => Err(SyntaxError(e))
    case Ok(tree) =>
      match Eval(k, tree)
      case Err(e) => Err(RuntimeError(e))
      case Ok(v) => Ok(v)
  }
}
