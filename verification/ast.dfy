/** The five node classes of src/Parser/ast.ts as one tree-shaped datatype. */
module Ast {

  import opened Tokens

  datatype Node =
    | Num(literal: string)                  // `Num`: the number of a NUMBER (or CONSTANT) token
    | Symbol(name: string)                  // `SymbolNode`: a variable
    | FuncCall(name: string, arg: Node)     // `FuncNode`
    | Unary(sign: Kind, operand: Node)      // `UnaryOpr`: `sign` is the PLUS or MINUS kind
    | BinOp(op: string, left: Node, right: Node)  // `BinOpr`

  const Operators: seq<string> := ["+", "-", "*", "/", "^"]

  /** The shape of every tree the parser builds from lexer tokens. */
  predicate WellFormedNode(e: Node) {
    match e
    case Num(lit) => IsNumeral(lit)
    case Symbol(name) => |name| == 1 && IsLetter(name[0])
    case FuncCall(name, arg) => name in FuncNames && WellFormedNode(arg)
    case Unary(sign, x) => (sign == Plus || sign == Minus) && WellFormedNode(x)
    case BinOp(op, l, r) => op in Operators && WellFormedNode(l) && WellFormedNode(r)
  }

  /** Whether a variable occurs anywhere in the tree. */
  predicate HasSymbol(e: Node) {
    match e
    case Num(_) => false
    case Symbol(_) => true
    case FuncCall(_, arg) => HasSymbol(arg)
    case Unary(_, x) => HasSymbol(x)
    case BinOp(_, l, r) => HasSymbol(l) || HasSymbol(r)
  }
}
