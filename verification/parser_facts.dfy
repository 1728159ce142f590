/** What the parser as written actually accepts.

    The central fact is that every normal return from a term or an
    expression leaves `Eof` as the current token: after a factor, the term
    rule takes whatever token follows, if it is not `Eof`, as a binary
    operator and parses the rest as an expression. Everything else follows:
    the `+`/`-` loop never runs, a parenthesised factor and a comparison can
    never find their `)`, a conditional never succeeds, a block succeeds only
    when empty, and a successful program holds exactly one statement.
 */
module ParserFacts {
  import opened Tokens
  import opened Parser

  // ---------------------------------------------------------------------------
  // Factors, terms and expressions

  /** A factor succeeds exactly on a value token, which it turns into a leaf
      without advancing; a parenthesised factor always fails. */
  lemma {:induction false} FactorOutcome(toks: seq<Token>, s: State)
    requires IsStream(toks) && Valid(toks, s)
    decreases |toks| - s.cur, 2
    ensures var r := ParseFactor(toks, s);
            r.Ok? <==> IsValueKind(Cur(toks, s).kind)
    ensures var r := ParseFactor(toks, s);
            r.Ok? ==> r.value == Leaf(Cur(toks, s)) && r.st == s
  {
    if Cur(toks, s).kind == ParenOpen {
      ExpressionEndsAtEof(toks, Advance(toks, s));
    }
  }

  /** A term that returns normally leaves `Eof` as the current token. */
  lemma {:induction false} TermEndsAtEof(toks: seq<Token>, s: State)
    requires IsStream(toks) && Valid(toks, s)
    decreases |toks| - s.cur, 3
    ensures var r := ParseTerm(toks, s);
            r.Ok? ==> Cur(toks, r.st).kind == Eof
  {
    FactorOutcome(toks, s);
    match ParseFactor(toks, s)
    case Err(_) =>
    case Ok(left, s1) =>
      var s2 := Advance(toks, s1);
      if Cur(toks, s2).kind != Eof {
        ExpressionEndsAtEof(toks, Advance(toks, s2));
      }
  }

  /** An expression that returns normally leaves `Eof` as the current token. */
  lemma {:induction false} ExpressionEndsAtEof(toks: seq<Token>, s: State)
    requires IsStream(toks) && Valid(toks, s)
    decreases |toks| - s.cur, 4
    ensures var r := ParseExpression(toks, s);
            r.Ok? ==> Cur(toks, r.st).kind == Eof
  {
    TermEndsAtEof(toks, s);
  }

  /** The `+`/`-` loop never iterates: an expression is just a term. */
  lemma ExpressionIsTerm(toks: seq<Token>, s: State)
    requires IsStream(toks) && Valid(toks, s)
    ensures ParseExpression(toks, s) == ParseTerm(toks, s)
  {
    TermEndsAtEof(toks, s);
  }

  /** One step of an expression that starts with a value: the value alone
      when `Eof` follows, otherwise the value, the next token as operator,
      and the expression after that. */
  lemma ExpressionStep(toks: seq<Token>, s: State)
    requires IsStream(toks) && Valid(toks, s) && IsValueKind(Cur(toks, s).kind)
    ensures var s2 := Advance(toks, s);
            var op := Cur(toks, s2);
            ParseExpression(toks, s) ==
              if op.kind == Eof then Ok(Leaf(Cur(toks, s)), s2)
              else match ParseExpression(toks, Advance(toks, s2))
                   case Err(e) => Err(e)
                   case Ok(right, s3) => Ok(Binary(op, Leaf(Cur(toks, s)), right), s3)
  {
    ExpressionIsTerm(toks, s);
    assert ParseFactor(toks, s) == Ok(Leaf(Cur(toks, s)), s);
  }

  /** Each kind of token that cannot start a factor raises its own error at
      its own location; the `Eof` and `=` messages are each other's. */
  lemma FactorErrors(toks: seq<Token>, s: State)
    requires IsStream(toks) && Valid(toks, s)
    ensures var t := Cur(toks, s);
            var r := ParseFactor(toks, s);
            && (t.kind == Eof ==> r == Err(ParseError(AssignmentInPrint, t.loc)))
            && (t.kind == AssignToken ==> r == Err(ParseError(UnexpectedEndOfFile, t.loc)))
            && (t.kind == ElseToken ==> r == Err(ParseError(UnexpectedElse, t.loc)))
            && (t.kind == ParenClose ==> r == Err(ParseError(UnexpectedClosingParen, t.loc)))
            && (!IsValueKind(t.kind) && t.kind !in {Eof, AssignToken, ElseToken, ParenClose, ParenOpen} ==>
                  r == Err(ParseError(UnexpectedToken(t.text), t.loc)))
  {
    var t := Cur(toks, s);
    if !IsValueKind(t.kind) && t.kind != ParenOpen {
      assert ParseFactor(toks, s) == Err(ParseError(FactorError(t), t.loc));
    }
  }

  // ---------------------------------------------------------------------------
  // The language of expressions: value (operator value)* followed by `Eof`,
  // where an "operator" is any token other than `Eof`.

  /** A value, then any number of (non-`Eof` token, value) pairs. */
  predicate IsChain(ts: seq<Token>)
    decreases |ts|
  {
    if |ts| == 1 then IsValueKind(ts[0].kind)
    else |ts| >= 3 && IsValueKind(ts[0].kind) && ts[1].kind != Eof && IsChain(ts[2..])
  }

  /** The tree of a chain: every operator takes the leaf before it as its
      left operand and the rest of the chain as its right operand. */
  function RightNest(ts: seq<Token>): Node
    requires IsChain(ts)
    decreases |ts|
  {
    if |ts| == 1 then Leaf(ts[0]) else Binary(ts[1], Leaf(ts[0]), RightNest(ts[2..]))
  }

  lemma DropTwo(toks: seq<Token>, a: nat, b: nat)
    requires a + 2 <= b <= |toks|
    ensures toks[a..b][2..] == toks[a + 2..b]
  {
  }

  /** Soundness: what an expression accepts is a chain ending just before
      `Eof`, and the tree it builds nests the operators to the right. */
  lemma {:induction false} ExpressionAcceptsChain(toks: seq<Token>, s: State)
    requires IsStream(toks) && Valid(toks, s)
    decreases |toks| - s.cur
    ensures var r := ParseExpression(toks, s);
            r.Ok? ==>
              && s.cur < r.st.cur < |toks|
              && toks[r.st.cur].kind == Eof
              && IsChain(toks[s.cur..r.st.cur])
              && r.value == RightNest(toks[s.cur..r.st.cur])
  {
    ExpressionIsTerm(toks, s);
    FactorOutcome(toks, s);
    TermEndsAtEof(toks, s);
    var r := ParseExpression(toks, s);
    if r.Ok? {
      var s2 := Advance(toks, s);
      if Cur(toks, s2).kind != Eof {
        var s3 := Advance(toks, s2);
        ExpressionAcceptsChain(toks, s3);
        var e := r.st.cur;
        var ts := toks[s.cur..e];
        assert ts[2..] == toks[s3.cur..e];
      } else {
        assert toks[s.cur..r.st.cur] == [toks[s.cur]];
      }
    }
  }

  /** Completeness: an expression accepts every chain that ends just before
      `Eof`, builds its right-nested tree and stops on that `Eof`. */
  lemma {:induction false} ExpressionParsesChain(toks: seq<Token>, s: State, n: nat)
    requires IsStream(toks) && Valid(toks, s)
    requires s.cur + n < |toks| && toks[s.cur + n].kind == Eof
    requires IsChain(toks[s.cur..s.cur + n])
    decreases n
    ensures ParseExpression(toks, s) ==
              Ok(RightNest(toks[s.cur..s.cur + n]), State(toks[s.cur + n - 1], s.cur + n))
  {
    var ts := toks[s.cur..s.cur + n];
    assert ts[0] == toks[s.cur];
    ExpressionStep(toks, s);
    var s2 := Advance(toks, s);
    if n == 1 {
      assert s2 == State(toks[s.cur], s.cur + 1);
      assert ParseExpression(toks, s) == Ok(Leaf(ts[0]), s2);
    } else {
      assert ts[1] == toks[s.cur + 1];
      var s3 := Advance(toks, s2);
      assert s3.cur == s.cur + 2;
      DropTwo(toks, s.cur, s.cur + n);
      var rest := ts[2..];
      assert IsChain(rest);
      ExpressionParsesChain(toks, s3, n - 2);
      var last := State(toks[s.cur + n - 1], s.cur + n);
      assert ParseExpression(toks, s3) == Ok(RightNest(rest), last);
    }
  }

  // ---------------------------------------------------------------------------
  // Comparisons, conditionals, blocks and statements

  /** A comparison never returns normally: after its first expression the
      current token is `Eof`, which is neither an operator nor `)`. */
  lemma ComparisonFails(toks: seq<Token>, s: State)
    requires IsStream(toks) && Valid(toks, s)
    ensures var r := ParseComparison(toks, s);
            && r.Err?
            && (Cur(toks, s).kind != ParenOpen ==> r.error == ParseError(MissingOpeningParen, Cur(toks, s).loc))
            && (var inner := ParseExpression(toks, Advance(toks, s));
                Cur(toks, s).kind == ParenOpen && inner.Ok? ==>
                  r.error == ParseError(MissingClosingBraces, Cur(toks, inner.st).loc))
  {
    if Cur(toks, s).kind == ParenOpen {
      ExpressionEndsAtEof(toks, Advance(toks, s));
    }
  }

  /** A conditional never returns normally; when `if` does not start a line
      it fails for that reason before looking further. */
  lemma ConditionalFails(toks: seq<Token>, s: State)
    requires IsStream(toks) && Valid(toks, s)
    ensures var r := ParseConditional(toks, s);
            && r.Err?
            && (s.prev.kind != Newline && s.prev.kind != ProgramToken ==>
                  r.error == ParseError(IfNotOnNewLine, Cur(toks, s).loc))
  {
    if s.prev.kind == Newline || s.prev.kind == ProgramToken {
      ComparisonFails(toks, Advance(toks, s));
    }
  }

  /** A statement that returns normally leaves `Eof` as the current token and
      is a print block or an expression, never a conditional. */
  lemma {:induction false} StatementEndsAtEof(toks: seq<Token>, s: State)
    requires IsStream(toks) && Valid(toks, s)
    decreases |toks| - s.cur
    ensures var r := ParseStatement(toks, s);
            r.Ok? ==> Cur(toks, r.st).kind == Eof && !r.value.Conditional?
  {
    var k := Cur(toks, s).kind;
    if k == CommentToken || k == Newline {
      StatementEndsAtEof(toks, Advance(toks, s));
    } else if k == IfToken {
      ConditionalFails(toks, s);
    } else if k == PrintToken {
      ExpressionEndsAtEof(toks, Advance(toks, s));
    } else {
      ExpressionEndsAtEof(toks, s);
      ExpressionAcceptsChain(toks, s);
    }
  }

  /** The separator check after a statement always passes, so the
      missing-newline error is never raised. */
  lemma SeparatorAlwaysPresent(toks: seq<Token>, s: State)
    requires IsStream(toks) && Valid(toks, s)
    ensures var r := ParseStatement(toks, s);
            r.Ok? ==> ExpectNewlineOrEof(toks, r.st) && AdvancePastNewlines(toks, r.st) == r.st
  {
    StatementEndsAtEof(toks, s);
  }

  /** A block's statement loop fails once it has reached `Eof`. */
  lemma BlockItemsFailAtEof(toks: seq<Token>, s: State, acc: seq<Node>)
    requires IsStream(toks) && Valid(toks, s) && Cur(toks, s).kind == Eof
    ensures BlockItems(toks, s, acc).Err?
  {
    assert SkipNewlines(toks, s) == s;
    assert ParseStatement(toks, s) == ParseExpression(toks, s);
    ExpressionIsTerm(toks, s);
    FactorOutcome(toks, s);
    assert ParseTerm(toks, s).Err?;
  }

  /** A block's statement loop succeeds only on `}` after blank lines:
      a statement inside it leaves `Eof` behind, which is not `}`. */
  lemma BlockItemsAddNothing(toks: seq<Token>, s: State, acc: seq<Node>)
    requires IsStream(toks) && Valid(toks, s)
    ensures var r := BlockItems(toks, s, acc);
            r.Ok? ==> r.value == acc && r.st == SkipNewlines(toks, s)
  {
    if Cur(toks, s).kind != BracesClose {
      var s1 := SkipNewlines(toks, s);
      if Cur(toks, s1).kind != BracesClose {
        StatementEndsAtEof(toks, s1);
        var r1 := ParseStatement(toks, s1);
        if r1.Ok? {
          BlockItemsFailAtEof(toks, SkipNewlines(toks, r1.st), acc + [r1.value]);
        }
      }
    }
  }

  /** A block fails unless its first non-newline token is `{`; when it
      succeeds it is empty and its `}` has been consumed. */
  lemma BlockOutcome(toks: seq<Token>, s: State, what: Token)
    requires IsStream(toks) && Valid(toks, s)
    ensures var r := ParseBlock(toks, s, what);
            var s1 := SkipNewlines(toks, s);
            && (Cur(toks, s1).kind != BracesOpen ==> r == Err(ParseError(MissingOpeningBraces, Cur(toks, s1).loc)))
            && (r.Ok? ==> r.value == Block(what, []) && r.st.prev.kind == BracesClose)
  {
    var s1 := SkipNewlines(toks, s);
    if Cur(toks, s1).kind == BracesOpen {
      BlockItemsAddNothing(toks, Advance(toks, s1), []);
    }
  }

  /** `print` followed by a chain and `Eof` is a one-child block tagged with
      the `print` token, holding the chain's tree; nothing else after
      `print` succeeds. */
  lemma PrintOutcome(toks: seq<Token>, s: State)
    requires IsStream(toks) && Valid(toks, s) && Cur(toks, s).kind == PrintToken
    ensures var r := ParsePrint(toks, s);
            r.Ok? ==>
              && r.value.Block? && r.value.token == Cur(toks, s)
              && IsChain(toks[s.cur + 1..r.st.cur]) && toks[r.st.cur].kind == Eof
              && r.value.children == [RightNest(toks[s.cur + 1..r.st.cur])]
  {
    ExpressionAcceptsChain(toks, Advance(toks, s));
  }

  // ---------------------------------------------------------------------------
  // Whole programs

  /** The whole parse is decided by the first statement: an empty stream is
      accepted with no statements, and otherwise the first statement's error
      rejects the program or its tree is the program's only child. */
  lemma ProgramIsFirstStatement(toks: seq<Token>)
    requires IsStream(toks)
    ensures var first := ParseStatement(toks, State(ProgramStart, 0));
            ParseTokens(toks) ==
              if toks[0].kind == Eof then Accepted(false, Block(ProgramStart, []))
              else if first.Err? then Rejected(first.error)
              else Accepted(true, Block(ProgramStart, [first.value]))
  {
    var s0 := State(ProgramStart, 0);
    if toks[0].kind != Eof {
      StatementEndsAtEof(toks, s0);
      SeparatorAlwaysPresent(toks, s0);
      var first := ParseStatement(toks, s0);
      if first.Ok? {
        assert ProgramItems(toks, first.st, [first.value]) == Ok([first.value], first.st);
        assert ProgramItems(toks, s0, []) == Ok([first.value], first.st);
      }
    }
  }

  /** A parse accepts an empty stream with no statements, and otherwise
      either fails or holds exactly one statement, never a conditional. */
  lemma ProgramHasAtMostOneStatement(toks: seq<Token>)
    requires IsStream(toks)
    ensures var r := ParseTokens(toks);
            r.Accepted? ==>
              && (r.nonEmpty ==> |r.root.children| == 1 && !r.root.children[0].Conditional?)
              && (!r.nonEmpty <==> toks[0].kind == Eof)
  {
    ProgramIsFirstStatement(toks);
    StatementEndsAtEof(toks, State(ProgramStart, 0));
  }

  /** The parse never fails for want of a statement separator: a rejection
      is always the first statement's own error. */
  lemma RejectionIsFirstStatementError(toks: seq<Token>)
    requires IsStream(toks)
    ensures var r := ParseTokens(toks);
            var first := ParseStatement(toks, State(ProgramStart, 0));
            r.Rejected? ==> first.Err? && r.error == first.error
  {
    ProgramIsFirstStatement(toks);
  }
}
