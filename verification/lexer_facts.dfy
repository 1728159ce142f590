/** Properties of the tokenizer: lookahead, maximal runs, literal shapes,
    whitespace skipping and position tracking, plus worked examples. */
module LexerFacts {
  import opened Tokens
  import opened Lexer

  /** A fresh scanner's cursor agrees with its offset. */
  lemma StartIsConsistent(data: string)
    ensures Consistent(data, Start)
  {
    assert data[..0] == "";
  }

  // ---------------------------------------------------------------------------
  // Line and column tracking: every scanning step keeps the cursor's line and
  // column equal to those computed from its offset.

  /** Reading one character keeps the cursor's line and column those of its
      offset. */
  lemma NextCharKeepsConsistent(data: string, c: Cursor)
    requires Consistent(data, c)
    ensures Consistent(data, NextChar(data, c).next)
  {
    if c.pos < |data| {
      assert data[..c.pos + 1][..c.pos] == data[..c.pos];
    }
  }

  lemma {:induction false} RunKeepsConsistent(data: string, c: Cursor, cls: RunClass)
    requires Consistent(data, c)
    decreases |data| - c.pos
    ensures Consistent(data, Run(data, c, cls))
  {
    if InRun(cls, PeekChar(data, c)) {
      NextCharKeepsConsistent(data, c);
      RunKeepsConsistent(data, NextChar(data, c).next, cls);
    }
  }

  lemma {:induction false} StringEndKeepsConsistent(data: string, c: Cursor)
    requires Consistent(data, c) && '#' in data[c.pos..]
    decreases |data| - c.pos
    ensures Consistent(data, StringEnd(data, c))
  {
    assert data[c.pos..] == [data[c.pos]] + data[c.pos + 1..];
    var s := NextChar(data, c);
    NextCharKeepsConsistent(data, c);
    if s.ch != '#' {
      StringEndKeepsConsistent(data, s.next);
    }
  }

  lemma {:induction false} SkipBlanksKeepsConsistent(data: string, c: Cursor)
    requires Consistent(data, c)
    decreases |data| - c.pos
    ensures Consistent(data, SkipBlanks(data, c))
  {
    if IsBlankChar(PeekChar(data, c)) {
      NextCharKeepsConsistent(data, c);
      SkipBlanksKeepsConsistent(data, NextChar(data, c).next);
    }
  }

  /** After any token the cursor's line and column still match its offset:
      a newline moves to the next line and column 1, any other character
      moves one column right. */
  lemma NextTokenKeepsConsistent(data: string, c: Cursor)
    requires Consistent(data, c) && StringClosed(data, c.pos)
    ensures Consistent(data, NextToken(data, c).next)
  {
    var first := NextChar(data, c);
    var ch := first.ch;
    NextCharKeepsConsistent(data, c);
    if ch == '\0' || ch == '\n' || ch == '\t' || IsPunctuation(ch) {
    } else if ch == ' ' {
      RunKeepsConsistent(data, first.next, Spaces);
    } else if IsOperatorStart(ch) {
      NextCharKeepsConsistent(data, first.next);
    } else if ch == '#' {
      StringEndKeepsConsistent(data, first.next);
    } else if IsWordChar(ch) {
      RunKeepsConsistent(data, first.next, Word);
    }
  }

  lemma {:induction false} NextNWTokenKeepsConsistent(data: string, c: Cursor)
    requires Consistent(data, c)
    requires StringClosed(data, SkipBlanks(data, c).pos)
    decreases |data| - c.pos
    ensures Consistent(data, NextNWToken(data, c).next)
  {
    var s := NextToken(data, c);
    if IsBlankKind(s.token.kind) {
      BlankTokenKeepsSkip(data, c);
      NextTokenKeepsConsistent(data, c);
      NextNWTokenKeepsConsistent(data, s.next);
    } else {
      NextTokenKeepsConsistent(data, c);
    }
  }

  /** At the end of the buffer the scanner keeps answering `Eof` with empty
      text and does not move, whether or not whitespace is being skipped. */
  lemma EofIsFixpoint(data: string, c: Cursor)
    requires c.pos == |data|
    ensures NextToken(data, c) == Scan(Token("", Location(c.line, c.col), Eof), c)
    ensures NextNWToken(data, c) == NextToken(data, c)
  {
  }

  /** `>`, `<`, `=` and `!` take a following `=` into a two-character
      operator; otherwise exactly one character is consumed. */
  lemma OperatorLookahead(data: string, c: Cursor)
    requires c.pos < |data| && IsOperatorStart(data[c.pos])
    ensures var r := NextToken(data, c);
            if c.pos + 1 < |data| && data[c.pos + 1] == '=' then
              && r.token.kind == LongOperatorKind(data[c.pos])
              && r.token.text == [data[c.pos], '=']
              && r.next.pos == c.pos + 2
            else
              && r.token.kind == ShortOperatorKind(data[c.pos])
              && r.token.text == [data[c.pos]]
              && r.next == NextChar(data, c).next
  {
  }

  /** Anywhere in the buffer, a punctuation character is a token of its own
      kind holding just that character. */
  lemma PunctuationAnywhere(data: string, c: Cursor)
    requires c.pos < |data| && IsPunctuation(data[c.pos])
    ensures NextToken(data, c)
            == Scan(Token([data[c.pos]], CurrentLocation(c), PunctuationKind(data[c.pos])), NextChar(data, c).next)
  {
    assert data[c.pos..c.pos + 1] == [data[c.pos]];
  }

  /** The scan of a letter, digit or dot: the whole run, classified. */
  lemma WordTokenShape(data: string, c: Cursor)
    requires c.pos < |data| && IsWordChar(data[c.pos])
    ensures var e := Run(data, NextChar(data, c).next, Word);
            NextToken(data, c) == Scan(Token(data[c.pos..e.pos], CurrentLocation(c), Classify(data[c.pos..e.pos])), e)
  {
    var first := NextChar(data, c);
    assert first.ch == data[c.pos];
    assert first.ch != '\0' && !IsBlankChar(first.ch) && first.ch != '#';
    assert !IsPunctuation(first.ch) && !IsOperatorStart(first.ch);
  }

  /** A number, keyword or identifier token is scanned exactly when the
      current character is a letter, digit or dot. */
  lemma WordTokenStart(data: string, c: Cursor)
    requires c.pos <= |data| && StringClosed(data, c.pos)
    ensures IsWordKind(NextToken(data, c).token.kind) <==> c.pos < |data| && IsWordChar(data[c.pos])
  {
    if c.pos < |data| && IsWordChar(data[c.pos]) {
      WordTokenShape(data, c);
    }
  }

  /** A space token is a maximal run of spaces: every character of it is a
      space and the character after it is not. */
  lemma SpaceRunIsMaximal(data: string, c: Cursor)
    requires c.pos <= |data| && StringClosed(data, c.pos)
    requires NextToken(data, c).token.kind == Space
    ensures var r := NextToken(data, c);
            && (forall i :: 0 <= i < |r.token.text| ==> r.token.text[i] == ' ')
            && (r.next.pos == |data| || data[r.next.pos] != ' ')
  {
    var first := NextChar(data, c);
    assert first.ch == ' ' && !IsPunctuation(first.ch) && !IsOperatorStart(first.ch);
    var e := Run(data, first.next, Spaces);
    assert NextToken(data, c) == Scan(Token(data[c.pos..e.pos], CurrentLocation(c), Space), e);
    RunSlice(data, c.pos, e.pos, Spaces);
  }

  /** A number, keyword or identifier token is a maximal run of letters,
      digits and dots. */
  lemma WordRunIsMaximal(data: string, c: Cursor)
    requires c.pos <= |data| && StringClosed(data, c.pos)
    requires IsWordKind(NextToken(data, c).token.kind)
    ensures var r := NextToken(data, c);
            && (forall i :: 0 <= i < |r.token.text| ==> IsWordChar(r.token.text[i]))
            && (r.next.pos == |data| || !IsWordChar(data[r.next.pos]))
  {
    WordTokenStart(data, c);
    WordTokenShape(data, c);
    var e := Run(data, NextChar(data, c).next, Word);
    RunSlice(data, c.pos, e.pos, Word);
  }

  /** A run together with the character that started it lies in the class. */
  lemma RunSlice(data: string, p: nat, e: nat, cls: RunClass)
    requires p < e <= |data| && InRun(cls, data[p])
    requires forall i :: p + 1 <= i < e ==> InRun(cls, data[i])
    ensures forall i :: 0 <= i < |data[p..e]| ==> InRun(cls, data[p..e][i])
  {
    assert forall i :: 0 <= i < e - p ==> data[p..e][i] == data[p + i];
  }

  /** The scan of a `#`: everything up to and including the next `#`. */
  lemma StringTokenShape(data: string, c: Cursor)
    requires c.pos < |data| && data[c.pos] == '#' && StringClosed(data, c.pos)
    ensures NextChar(data, c).next.pos <= |data| && '#' in data[NextChar(data, c).next.pos..]
    ensures var e := StringEnd(data, NextChar(data, c).next);
            NextToken(data, c) == Scan(Token(data[c.pos..e.pos], CurrentLocation(c), StringToken), e)
  {
    var first := NextChar(data, c);
    assert first.ch == '#';
    assert first.ch != '\0' && !IsBlankChar(first.ch);
    assert !IsPunctuation(first.ch) && !IsOperatorStart(first.ch);
  }

  lemma HashDelimited(data: string, p: nat, e: nat)
    requires p + 1 < e <= |data| && data[p] == '#' && data[e - 1] == '#'
    requires forall i :: p + 1 <= i < e - 1 ==> data[i] != '#'
    ensures var t := data[p..e];
            && |t| >= 2 && t[0] == '#' && t[|t| - 1] == '#'
            && forall i :: 0 < i < |t| - 1 ==> t[i] != '#'
  {
    var t := data[p..e];
    assert forall i :: 0 < i < |t| - 1 ==> t[i] == data[p + i];
  }

  /** A string literal starts and ends with `#` and has no `#` inside. */
  lemma StringLiteralShape(data: string, c: Cursor)
    requires c.pos <= |data| && StringClosed(data, c.pos)
    requires NextToken(data, c).token.kind == StringToken
    ensures var t := NextToken(data, c).token.text;
            && |t| >= 2 && t[0] == '#' && t[|t| - 1] == '#'
            && forall i :: 0 < i < |t| - 1 ==> t[i] != '#'
  {
    StringTokenShape(data, c);
    var e := StringEnd(data, NextChar(data, c).next);
    HashDelimited(data, c.pos, e.pos);
  }

  /** A character outside every class the scanner knows becomes a
      one-character `Unknown` token, and only such a character does. */
  lemma UnknownIsOneCharacter(data: string, c: Cursor)
    requires c.pos <= |data| && StringClosed(data, c.pos)
    ensures var r := NextToken(data, c);
            r.token.kind == Unknown <==>
              && c.pos < |data|
              && data[c.pos] != '\0' && !IsBlankChar(data[c.pos]) && data[c.pos] != '#'
              && !IsPunctuation(data[c.pos]) && !IsOperatorStart(data[c.pos])
              && !IsWordChar(data[c.pos])
    ensures var r := NextToken(data, c);
            r.token.kind == Unknown ==> r.token.text == [data[c.pos]] && r.next.pos == c.pos + 1
  {
    var first := NextChar(data, c);
    var ch := first.ch;
    if c.pos == |data| || ch == '\0' || IsBlankChar(ch) || ch == '#' {
    } else if IsPunctuation(ch) {
      assert NextToken(data, c).token.kind == PunctuationKind(ch);
    } else if IsOperatorStart(ch) {
      OperatorLookahead(data, c);
    } else if IsWordChar(ch) {
      WordTokenStart(data, c);
    } else {
      assert data[c.pos..c.pos + 1] == [ch];
      assert NextToken(data, c) == Scan(Token([ch], CurrentLocation(c), Unknown), first.next);
    }
  }

  /** Skipping whitespace token by token lands on the same token as first
      skipping blank characters one by one and then scanning once. */
  lemma {:induction false} NextNWTokenScansFirstSolid(data: string, c: Cursor)
    requires c.pos <= |data|
    requires StringClosed(data, SkipBlanks(data, c).pos)
    decreases |data| - c.pos
    ensures NextNWToken(data, c) == NextToken(data, SkipBlanks(data, c))
  {
    var s := NextToken(data, c);
    if IsBlankKind(s.token.kind) {
      BlankTokenKeepsSkip(data, c);
      NextNWTokenScansFirstSolid(data, s.next);
    } else {
      assert c.pos == |data| || !IsBlankChar(data[c.pos]);
    }
  }

  /** Every non-whitespace token is located at the line and column of the
      offset where it starts, counting newlines from the start of the buffer. */
  lemma SolidTokenLocation(data: string, c: Cursor)
    requires Consistent(data, c)
    requires StringClosed(data, SkipBlanks(data, c).pos)
    ensures var p := SkipBlanks(data, c).pos;
            NextNWToken(data, c).token.loc == Location(1 + NewlineCount(data[..p]), ColumnAfter(data[..p]))
  {
    NextNWTokenScansFirstSolid(data, c);
    SkipBlanksKeepsConsistent(data, c);
  }

  // ---------------------------------------------------------------------------
  // Worked examples

  lemma FirstTokenOfPositionExample()
    ensures NextToken("a\nbb", Start) == Scan(Token("a", Location(1, 1), VarToken), Cursor(1, 1, 2))
  {
    var d := "a\nbb";
    WordTokenShape(d, Start);
    assert Run(d, NextChar(d, Start).next, Word) == Cursor(1, 1, 2) by {
      assert NextChar(d, Start) == Step('a', Cursor(1, 1, 2));
      assert !IsWordChar(d[1]);
    }
    assert d[0..1] == "a";
    assert Classify("a") == VarToken by { assert !IsNumeric("a"[0]); }
  }

  lemma SecondLineOfPositionExample()
    ensures NextToken("a\nbb", Cursor(1, 1, 2)) == Scan(Token("", Location(1, 2), Newline), Cursor(2, 2, 1))
    ensures NextToken("a\nbb", Cursor(2, 2, 1)) == Scan(Token("bb", Location(2, 1), VarToken), Cursor(4, 2, 3))
  {
    var d := "a\nbb";
    assert NextChar(d, Cursor(1, 1, 2)) == Step('\n', Cursor(2, 2, 1));
    WordTokenShape(d, Cursor(2, 2, 1));
    assert Run(d, NextChar(d, Cursor(2, 2, 1)).next, Word) == Cursor(4, 2, 3) by {
      assert NextChar(d, Cursor(2, 2, 1)) == Step('b', Cursor(3, 2, 2));
      assert Run(d, Cursor(4, 2, 3), Word) == Cursor(4, 2, 3);
    }
    assert d[2..4] == "bb";
    assert Classify("bb") == VarToken by { assert !IsNumeric("bb"[0]); }
  }

  /** `a` sits at (1,1); after the newline `bb` sits at (2,1). */
  lemma PositionExample()
    ensures var t1 := NextNWToken("a\nbb", Start);
            var t2 := NextNWToken("a\nbb", t1.next);
            && t1.token == Token("a", Location(1, 1), VarToken)
            && t2.token == Token("bb", Location(2, 1), VarToken)
  {
    FirstTokenOfPositionExample();
    SecondLineOfPositionExample();
  }

  /** `!x` starts with `Not`: the lookahead at `x` is undone. */
  lemma NotExample()
    ensures NextToken("!x", Start) == Scan(Token("!", Location(1, 1), NotToken), Cursor(1, 1, 2))
  {
    OperatorLookahead("!x", Start);
  }

  /** ... and `x` is then scanned on its own as an identifier. */
  lemma NotExampleRest()
    ensures NextToken("!x", Cursor(1, 1, 2)) == Scan(Token("x", Location(1, 2), VarToken), Cursor(2, 1, 3))
  {
    var d := "!x";
    WordTokenShape(d, Cursor(1, 1, 2));
    assert Run(d, NextChar(d, Cursor(1, 1, 2)).next, Word) == Cursor(2, 1, 3) by {
      assert NextChar(d, Cursor(1, 1, 2)) == Step('x', Cursor(2, 1, 3));
    }
    assert d[1..2] == "x";
    assert Classify("x") == VarToken by { assert !IsNumeric("x"[0]); }
  }

  /** The tokens with a fixed spelling, written out as a table. */
  const FixedSpellings: map<string, TokenKind> := map[
    "(" := ParenOpen, ")" := ParenClose, "{" := BracesOpen, "}" := BracesClose,
    "+" := PlusToken, "-" := MinusToken, "*" := MultiplyToken, "/" := DivideToken,
    ";" := SemicolonToken, "<" := LessToken, ">" := GreaterToken, "=" := AssignToken,
    "!" := NotToken, "<=" := LessEqualToken, ">=" := GreaterEqualToken,
    "==" := EqualToken, "!=" := NotEqualToken]

  /** The kind the scanner gives a fixed spelling, read off its first
      character and whether `=` follows. */
  function SpelledKind(op: string): TokenKind
    requires |op| > 0 && (IsPunctuation(op[0]) || IsOperatorStart(op[0]))
  {
    if IsPunctuation(op[0]) then PunctuationKind(op[0])
    else if |op| > 1 && op[1] == '=' then LongOperatorKind(op[0])
    else ShortOperatorKind(op[0])
  }

  lemma SpelledKindAgreesWithTable(op: string)
    requires op in FixedSpellings
    ensures |op| > 0 && (IsPunctuation(op[0]) || IsOperatorStart(op[0]))
    ensures |op| == 1 || (|op| == 2 && IsOperatorStart(op[0]) && op[1] == '=')
    ensures SpelledKind(op) == FixedSpellings[op]
  {
  }

  lemma OneCharacterSpelling(ch: char)
    requires IsPunctuation(ch) || IsOperatorStart(ch)
    ensures var r := NextToken([ch], Start);
            && r.token == Token([ch], Location(1, 1), SpelledKind([ch]))
            && r.next == Cursor(1, 1, 2)
            && NextToken([ch], r.next).token.kind == Eof
  {
    assert [ch][0..1] == [ch];
    assert NextChar([ch], Start) == Step(ch, Cursor(1, 1, 2));
  }

  lemma TwoCharacterSpelling(ch: char)
    requires IsOperatorStart(ch)
    ensures var r := NextToken([ch, '='], Start);
            && r.token == Token([ch, '='], Location(1, 1), SpelledKind([ch, '=']))
            && r.next == Cursor(2, 1, 3)
            && NextToken([ch, '='], r.next).token.kind == Eof
  {
    assert [ch, '='][0..2] == [ch, '='];
    assert NextChar([ch, '='], Start) == Step(ch, Cursor(1, 1, 2));
    assert NextChar([ch, '='], Cursor(1, 1, 2)) == Step('=', Cursor(2, 1, 3));
  }

  /** Scanning a fixed spelling on its own yields exactly one token of the
      tabled kind, consuming exactly that text, and then `Eof`. */
  lemma FixedSpellingAlone(op: string)
    requires op in FixedSpellings
    ensures var r := NextToken(op, Start);
            && r.token == Token(op, Location(1, 1), FixedSpellings[op])
            && r.next == Cursor(|op|, 1, 1 + |op|)
            && NextToken(op, r.next).token.kind == Eof
  {
    SpelledKindAgreesWithTable(op);
    if |op| == 1 {
      assert op == [op[0]];
      OneCharacterSpelling(op[0]);
    } else {
      assert op == [op[0], '='];
      TwoCharacterSpelling(op[0]);
    }
  }

  /** Digits alone are an integer; any dot makes a float, even two dots. */
  lemma NumberExamples()
    ensures Classify("123") == IntToken
    ensures Classify("12.5") == FloatToken
    ensures Classify("12.5.6") == FloatToken
  {
    assert !IsInt("12.5") by { assert !IsInteger("12.5"[2]); }
    assert !IsInt("12.5.6") by { assert !IsInteger("12.5.6"[2]); }
  }

  lemma KeywordExamples()
    ensures Classify("print") == PrintToken && Classify("Print") == PrintToken
    ensures Classify("if") == IfToken
    ensures Classify("else") == ElseToken && Classify("let") == LetToken
  {
    assert !AllNumeric("print") by { assert !IsNumeric("print"[0]); }
    assert !AllNumeric("Print") by { assert !IsNumeric("Print"[0]); }
    assert !AllNumeric("if") by { assert !IsNumeric("if"[0]); }
    assert !AllNumeric("else") by { assert !IsNumeric("else"[0]); }
    assert !AllNumeric("let") by { assert !IsNumeric("let"[0]); }
  }

  /** Keywords match whole runs only; a digit-led run with letters is a name. */
  lemma IdentifierExamples()
    ensures Classify("printer") == VarToken
    ensures Classify("ifx") == VarToken
    ensures Classify("12ab") == VarToken
  {
    assert !AllNumeric("printer") by { assert !IsNumeric("printer"[0]); }
    assert !AllNumeric("ifx") by { assert !IsNumeric("ifx"[0]); }
    assert !AllNumeric("12ab") by { assert !IsNumeric("12ab"[2]); }
  }
}
