/** Whole-program examples, on token streams as the scanner would deliver
    them for the source text quoted above each lemma. They pin down how the
    parser as written resolves inputs its grammar comments describe
    differently. */
module ParserExamples {
  import opened Tokens
  import opened Parser
  import opened ParserFacts

  function T(text: string, col: int, kind: TokenKind): Token {
    Token(text, Location(1, col), kind)
  }

  /** `print 1 2`: the second `2` is taken as an operator, so the parse runs
      into `Eof` where a factor is expected, and reports it with the message
      meant for `=`. */
  lemma PrintTwoValues()
    ensures ParseTokens([T("print", 1, PrintToken), T("1", 7, IntToken), T("2", 9, IntToken), T("", 10, Eof)])
            == Rejected(ParseError(AssignmentInPrint, Location(1, 10)))
  {
    var toks := [T("print", 1, PrintToken), T("1", 7, IntToken), T("2", 9, IntToken), T("", 10, Eof)];
    var e := ParseError(AssignmentInPrint, Location(1, 10));
    var s3 := State(toks[2], 3);
    FactorErrors(toks, s3);
    ExpressionIsTerm(toks, s3);
    assert ParseExpression(toks, s3) == Err(e);
    ExpressionStep(toks, State(toks[0], 1));
    assert ParseExpression(toks, State(toks[0], 1)) == Err(e);
    assert ParseStatement(toks, State(ProgramStart, 0)) == Err(e);
    ProgramIsFirstStatement(toks);
  }

  /** `if 1 > 0 { print 1 }`: the condition lacks its `(`, reported at `1`. */
  lemma ConditionWithoutParentheses()
    ensures ParseTokens([T("if", 1, IfToken), T("1", 4, IntToken), T(">", 6, GreaterToken), T("0", 8, IntToken),
                         T("{", 10, BracesOpen), T("print", 12, PrintToken), T("1", 18, IntToken),
                         T("}", 20, BracesClose), T("", 21, Eof)])
            == Rejected(ParseError(MissingOpeningParen, Location(1, 4)))
  {
    var toks := [T("if", 1, IfToken), T("1", 4, IntToken), T(">", 6, GreaterToken), T("0", 8, IntToken),
                 T("{", 10, BracesOpen), T("print", 12, PrintToken), T("1", 18, IntToken),
                 T("}", 20, BracesClose), T("", 21, Eof)];
    var e := ParseError(MissingOpeningParen, Location(1, 4));
    var s0 := State(ProgramStart, 0);
    ComparisonFails(toks, State(toks[0], 1));
    assert ParseComparison(toks, State(toks[0], 1)) == Err(e);
    assert ParseStatement(toks, s0) == ParseConditional(toks, s0);
    assert ParseConditional(toks, s0) == Err(e);
    ProgramIsFirstStatement(toks);
  }

  /** The tokens of `if (1 > 0) { print 1 }`. */
  const IfWithParentheses := [T("if", 1, IfToken), T("(", 4, ParenOpen), T("1", 5, IntToken), T(">", 7, GreaterToken),
                              T("0", 9, IntToken), T(")", 10, ParenClose), T("{", 12, BracesOpen),
                              T("print", 14, PrintToken), T("1", 20, IntToken), T("}", 22, BracesClose), T("", 23, Eof)]

  lemma ConditionExpressionFails()
    ensures ParseExpression(IfWithParentheses, State(IfWithParentheses[1], 2))
            == Err(ParseError(UnexpectedToken("{"), Location(1, 12)))
  {
    var toks := IfWithParentheses;
    var e := ParseError(UnexpectedToken("{"), Location(1, 12));
    var s6 := State(toks[5], 6);
    FactorErrors(toks, s6);
    ExpressionIsTerm(toks, s6);
    assert ParseExpression(toks, s6) == Err(e);
    ExpressionStep(toks, State(toks[3], 4));
    assert ParseExpression(toks, State(toks[3], 4)) == Err(e);
    ExpressionStep(toks, State(toks[1], 2));
  }

  lemma ConditionComparisonFails()
    ensures ParseComparison(IfWithParentheses, State(IfWithParentheses[0], 1))
            == Err(ParseError(UnexpectedToken("{"), Location(1, 12)))
  {
    ConditionExpressionFails();
  }

  /** `if (1 > 0) { print 1 }`: inside the condition `>` and then `)` are
      taken as operators, so the `{` lands in factor position. */
  lemma ConditionWithParentheses()
    ensures ParseTokens(IfWithParentheses) == Rejected(ParseError(UnexpectedToken("{"), Location(1, 12)))
  {
    var toks := IfWithParentheses;
    var e := ParseError(UnexpectedToken("{"), Location(1, 12));
    ConditionComparisonFails();
    var s0 := State(ProgramStart, 0);
    assert ParseStatement(toks, s0) == ParseConditional(toks, s0);
    assert ParseConditional(toks, s0) == Err(e);
    ProgramIsFirstStatement(toks);
  }

  /** The tokens of `1 * 2 + 3`. */
  const Arithmetic := [T("1", 1, IntToken), T("*", 3, MultiplyToken), T("2", 5, IntToken),
                       T("+", 7, PlusToken), T("3", 9, IntToken), T("", 10, Eof)]

  lemma ArithmeticTail()
    ensures ParseExpression(Arithmetic, State(Arithmetic[1], 2))
            == Ok(Binary(Arithmetic[3], Leaf(Arithmetic[2]), Leaf(Arithmetic[4])), State(Arithmetic[4], 5))
  {
    var toks := Arithmetic;
    ExpressionStep(toks, State(toks[3], 4));
    assert ParseExpression(toks, State(toks[3], 4)) == Ok(Leaf(toks[4]), State(toks[4], 5));
    ExpressionStep(toks, State(toks[1], 2));
  }

  lemma ArithmeticStatement()
    ensures var t := Arithmetic;
            ParseStatement(t, State(ProgramStart, 0))
            == Ok(Binary(t[1], Leaf(t[0]), Binary(t[3], Leaf(t[2]), Leaf(t[4]))), State(t[4], 5))
  {
    var s0 := State(ProgramStart, 0);
    ArithmeticTail();
    ExpressionStep(Arithmetic, s0);
    assert ParseStatement(Arithmetic, s0) == ParseExpression(Arithmetic, s0);
  }

  /** `1 * 2 + 3`: one statement whose tree is `1 * (2 + 3)`; there is no
      precedence, every operator nests to the right. */
  lemma NoPrecedence()
    ensures var t := Arithmetic;
            ParseTokens(t) == Accepted(true, Block(ProgramStart, [
                                Binary(t[1], Leaf(t[0]), Binary(t[3], Leaf(t[2]), Leaf(t[4])))]))
  {
    ArithmeticStatement();
    ProgramIsFirstStatement(Arithmetic);
  }
}
