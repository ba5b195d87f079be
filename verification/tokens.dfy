/** The token vocabulary: the `Type` kind enumeration and the `Func` name list
    of src/lib/token.ts, and the `Token` record of src/lib/types.ts. */
module Tokens {

  import opened Results

  /** The twelve token kinds. `Constant` is accepted by the parser as a number
      but never produced by the lexer. */
  datatype Kind =
    | Number | Plus | Minus | Mul | Div | Pow
    | Variable | Func | OpenBracket | CloseBracket | Eof | Constant

  /** A token's value: a JavaScript `string | number | null`. A NUMBER token
      keeps the literal text its number is parsed from (see Interpreter.Kernel). */
  datatype Value = NumberValue(literal: string) | Text(s: string) | Null

  datatype Token = Token(kind: Kind, value: Value)

  /** The `Func` enumeration, in declaration order; the lexer tries the names in this order. */
  const FuncNames: seq<string> := ["sin", "cos", "tan", "cosec", "sec", "abs", "log", "ln", "exp", "sqrt"]

  const MulToken: Token := Token(Mul, Text("*"))
  const EofToken: Token := Token(Eof, Null)

  /** `/\d/`: ASCII digits only. */
  predicate IsDigit(c: char) {
    '0' <= c <= '9'
  }

  /** `/[a-zA-Z]/`. */
  predicate IsLetter(c: char) {
    ('a' <= c <= 'z') || ('A' <= c <= 'Z')
  }

  /** `/\s/` of ECMAScript: the WhiteSpace and LineTerminator code points. */
  predicate IsWhiteSpace(c: char) {
    || c == ' ' || c == '\t' || c == '\n' || c == '\r'
    || c == '\U{000B}' || c == '\U{000C}' || c == '\U{00A0}' || c == '\U{1680}'
    || ('\U{2000}' <= c <= '\U{200A}')
    || c == '\U{2028}' || c == '\U{2029}' || c == '\U{202F}' || c == '\U{205F}'
    || c == '\U{3000}' || c == '\U{FEFF}'
  }

  predicate IsNumeralChar(c: char) {
    IsDigit(c) || c == '.'
  }

  /** The single-character operators and brackets and the kind each maps to. */
  function GlyphKind(c: char): Option<Kind> {
    match c
    case '+' => Some(Plus)
    case '-' => Some(Minus)
    case '*' => Some(Mul)
    case '/' => Some(Div)
    case '^' => Some(Pow)
    case '(' => Some(OpenBracket)
    case ')' => Some(CloseBracket)
    case _ => None
  }

  /** Every character the lexer can start a token with (after whitespace). */
  predicate IsTokenStart(c: char) {
    IsDigit(c) || IsLetter(c) || GlyphKind(c).Some?
  }

  function DotCount(s: string): nat {
    if |s| == 0 then 0
    else DotCount(s[..|s| - 1]) + (if s[|s| - 1] == '.' then 1 else 0)
  }

  /** A numeric literal as the lexer scans it: a digit, then digits and at most one dot. */
  predicate IsNumeral(s: string) {
    && |s| > 0
    && IsDigit(s[0])
    && (forall i :: 0 <= i < |s| ==> IsNumeralChar(s[i]))
    && DotCount(s) <= 1
  }

  /** What every token the lexer builds looks like. */
  predicate WellFormed(t: Token) {
    match t.kind
    case Number => t.value.NumberValue? && IsNumeral(t.value.literal)
    case Variable => t.value.Text? && |t.value.s| == 1 && IsLetter(t.value.s[0])
    case Func => t.value.Text? && t.value.s in FuncNames
    case Eof => t.value == Null
    case Constant => false
    case _ => t.value.Text? && |t.value.s| == 1 && GlyphKind(t.value.s[0]) == Some(t.kind)
  }

  /** `String(value)` in JavaScript, for the values a token can hold. */
  function AsString(v: Value): string {
    match v
    case Text(s) => s
    case NumberValue(lit) => lit
    case Null => "null"
  }

  lemma FuncNameNonEmpty(n: nat)
    requires n < |FuncNames|
    ensures |FuncNames[n]| > 0
  {
  }

  /** Every name has at least three letters, except `ln`. */
  lemma FuncNameLength(n: nat)
    requires n < |FuncNames|
    ensures |FuncNames[n]| >= 3 || FuncNames[n] == "ln"
  {
  }

  lemma FuncTokenWellFormed(name: string)
    requires name in FuncNames
    ensures WellFormed(Token(Func, Text(name)))
  {
  }

  lemma MulTokenWellFormed()
    ensures WellFormed(MulToken) && MulToken.kind != Eof
  {
  }

  lemma VariableTokenWellFormed(c: char)
    requires IsLetter(c)
    ensures WellFormed(Token(Variable, Text([c])))
  {
  }
}
