/** The evaluator on `2x` and `2 + 3`, the texts of the repository's parser tests. */
module InterpreterExamples {

  import opened Results
  import opened Ast
  import opened Interpreter
  import opened InterpreterFacts
  import opened ParserExamples

  /** `2x` is the number 2 written in front of `x`. */
  lemma InterpretTwoX<N, C>(k: Kernel<N, C>)
    ensures Interpret(k, "2x") == Ok(Symbolic(k.show(k.literal("2")) + "x"))
  {
    TwoXText();
    InterpretOf(k, "2x", BinOp("*", Num("2"), Symbol("x")));
    NumberTimesVariable(k);
  }

  /** `2 + 3` is the sum of the two numbers. */
  lemma InterpretTwoPlusThree<N, C>(k: Kernel<N, C>)
    ensures Interpret(k, "2 + 3") == Ok(Numeric(k.add(k.literal("2"), k.literal("3"))))
  {
    TwoPlusThreeText();
    InterpretOf(k, "2 + 3", BinOp("+", Num("2"), Num("3")));
  }
}
