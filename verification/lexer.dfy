/** The character-level tokenizer.

    The original scanner is an object holding an immutable buffer and a
    mutable cursor (offset, column, line). Here the cursor is a value and every
    scanning step is a pure function from (buffer, cursor) to a result and the
    cursor after it. The one-slot checkpoint/restore of the original becomes
    plain lookahead: the result simply carries the cursor from before the
    tentative character.
 */
module Lexer {
  import opened Tokens

  /** Scanner position: offset into the buffer, line and column (both from 1). */
  datatype Cursor = Cursor(pos: nat, line: nat, col: nat)

  /** The cursor of a freshly constructed scanner. */
  const Start := Cursor(0, 1, 1)

  /** One character read from the buffer, and the cursor after it. */
  datatype Step = Step(ch: char, next: Cursor)

  /** One token and the cursor after it. */
  datatype Scan = Scan(token: Token, next: Cursor)

  /** The two greedy runs the scanner knows: spaces, and `[a-zA-Z0-9.]`. */
  datatype RunClass = Spaces | Word

  // ---------------------------------------------------------------------------
  // Character classes

  predicate IsInteger(ch: char) {
    '0' <= ch <= '9'
  }

  predicate IsNumeric(ch: char) {
    IsInteger(ch) || ch == '.'
  }

  predicate IsAlpha(ch: char) {
    ('a' <= ch <= 'z') || ('A' <= ch <= 'Z') || ch == '.'
  }

  predicate IsWordChar(ch: char) {
    IsAlpha(ch) || IsNumeric(ch)
  }

  predicate InRun(cls: RunClass, ch: char) {
    match cls
    case Spaces => ch == ' '
    case Word => IsWordChar(ch)
  }

  /** Every character is a decimal digit (true of the empty string). */
  predicate IsInt(s: string) {
    forall i :: 0 <= i < |s| ==> IsInteger(s[i])
  }

  /** Every character is a digit or a dot. */
  predicate AllNumeric(s: string) {
    forall i :: 0 <= i < |s| ==> IsNumeric(s[i])
  }

  predicate IsPunctuation(ch: char) {
    ch == '(' || ch == ')' || ch == '{' || ch == '}' || ch == '+' ||
    ch == '/' || ch == '*' || ch == '-' || ch == ';'
  }

  /** The characters skipped between tokens. */
  predicate IsBlankChar(ch: char) {
    ch == ' ' || ch == '\t' || ch == '\n'
  }

  /** The characters that may start a two-character operator. */
  predicate IsOperatorStart(ch: char) {
    ch == '>' || ch == '<' || ch == '=' || ch == '!'
  }

  function PunctuationKind(ch: char): (k: TokenKind)
    requires IsPunctuation(ch)
    ensures !IsWordKind(k)
  {
    if ch == '(' then ParenOpen
    else if ch == ')' then ParenClose
    else if ch == '{' then BracesOpen
    else if ch == '}' then BracesClose
    else if ch == '+' then PlusToken
    else if ch == '/' then DivideToken
    else if ch == '*' then MultiplyToken
    else if ch == '-' then MinusToken
    else SemicolonToken
  }

  /** The kind of an operator character standing alone. */
  function ShortOperatorKind(ch: char): (k: TokenKind)
    requires IsOperatorStart(ch)
    ensures !IsWordKind(k)
  {
    if ch == '>' then GreaterToken
    else if ch == '<' then LessToken
    else if ch == '=' then AssignToken
    else NotToken
  }

  /** The kind of an operator character followed by `=`. */
  function LongOperatorKind(ch: char): (k: TokenKind)
    requires IsOperatorStart(ch)
    ensures !IsWordKind(k)
  {
    if ch == '>' then GreaterEqualToken
    else if ch == '<' then LessEqualToken
    else if ch == '=' then EqualToken
    else NotEqualToken
  }

  // ---------------------------------------------------------------------------
  // Line and column bookkeeping, defined independently of the scanner

  /** Number of newline characters in `s`. */
  function NewlineCount(s: string): nat
  {
    if |s| == 0 then 0
    else NewlineCount(s[..|s| - 1]) + (if s[|s| - 1] == '\n' then 1 else 0)
  }

  /** The column reached after reading `s` from the start of a line. */
  function ColumnAfter(s: string): nat
  {
    if |s| == 0 then 1
    else if s[|s| - 1] == '\n' then 1
    else ColumnAfter(s[..|s| - 1]) + 1
  }

  /** The cursor's line and column are those of its offset in `data`. */
  predicate Consistent(data: string, c: Cursor) {
    && c.pos <= |data|
    && c.line == 1 + NewlineCount(data[..c.pos])
    && c.col == ColumnAfter(data[..c.pos])
  }

  /** A `#` at `pos` has a closing `#` somewhere after it. */
  predicate StringClosed(data: string, pos: nat) {
    pos < |data| && data[pos] == '#' ==> '#' in data[pos + 1..]
  }

  // ---------------------------------------------------------------------------
  // The scanner

  /** Where the next token starts: the cursor's line and column. */
  function CurrentLocation(c: Cursor): (loc: Location)
    ensures loc.line == c.line && loc.column == c.col
  {
    Location(c.line, c.col)
  }

  /** Reads one character; at the end of the buffer yields NUL and stays put. */
  function NextChar(data: string, c: Cursor): (r: Step)
    requires c.pos <= |data|
    ensures r.next.pos <= |data|
    ensures c.pos == |data| ==> r == Step('\0', c)
    ensures c.pos < |data| ==> r.ch == data[c.pos] && r.next.pos == c.pos + 1
    ensures c.pos < |data| && r.ch == '\n' ==> r.next.line == c.line + 1 && r.next.col == 1
    ensures c.pos < |data| && r.ch != '\n' ==> r.next.line == c.line && r.next.col == c.col + 1
  {
    if c.pos >= |data| then Step('\0', c)
    else
      var ch := data[c.pos];
      Step(ch, Cursor(c.pos + 1,
                      if ch == '\n' then c.line + 1 else c.line,
                      if ch == '\n' then 1 else c.col + 1))
  }

  /** Looks at the character the next read will return, without reading it. */
  function PeekChar(data: string, c: Cursor): (ch: char)
    requires c.pos <= |data|
    ensures ch == NextChar(data, c).ch
    ensures c.pos == |data| ==> ch == '\0'
  {
    if c.pos >= |data| then '\0' else data[c.pos]
  }

  /** Extends a greedy run of class `cls` as far as it goes. */
  function Run(data: string, c: Cursor, cls: RunClass): (r: Cursor)
    requires c.pos <= |data|
    decreases |data| - c.pos
    ensures c.pos <= r.pos <= |data|
    ensures forall i :: c.pos <= i < r.pos ==> InRun(cls, data[i])
    ensures r.pos == |data| || !InRun(cls, data[r.pos])
    ensures r.line == c.line && r.col == c.col + (r.pos - c.pos)
  {
    if InRun(cls, PeekChar(data, c)) then Run(data, NextChar(data, c).next, cls) else c
  }

  /** Reads up to and including the closing `#` of a string literal. */
  function StringEnd(data: string, c: Cursor): (r: Cursor)
    requires c.pos <= |data| && '#' in data[c.pos..]
    decreases |data| - c.pos
    ensures c.pos < r.pos <= |data| && data[r.pos - 1] == '#'
    ensures forall i :: c.pos <= i < r.pos - 1 ==> data[i] != '#'
  {
    assert data[c.pos..] == [data[c.pos]] + data[c.pos + 1..];
    var s := NextChar(data, c);
    if s.ch == '#' then s.next else StringEnd(data, s.next)
  }

  /** Classifies a maximal `[a-zA-Z0-9.]` run: number, keyword or identifier. */
  function Classify(w: string): (k: TokenKind)
    ensures IsWordKind(k)
    ensures k == IntToken <==> IsInt(w)
    ensures k == FloatToken <==> AllNumeric(w) && !IsInt(w)
    ensures k == PrintToken <==> !AllNumeric(w) && (w == "print" || w == "Print")
    ensures k == IfToken <==> !AllNumeric(w) && w == "if"
    ensures k == ElseToken <==> !AllNumeric(w) && w == "else"
    ensures k == LetToken <==> !AllNumeric(w) && w == "let"
    ensures k == VarToken <==>
              !AllNumeric(w) && w != "print" && w != "Print" && w != "if" && w != "else" && w != "let"
  {
    if AllNumeric(w) then
      if IsInt(w) then IntToken else FloatToken
    else if w == "print" || w == "Print" then PrintToken
    else if w == "if" then IfToken
    else if w == "else" then ElseToken
    else if w == "let" then LetToken
    else VarToken
  }

  /** Scans exactly one token starting at the cursor. */
  function NextToken(data: string, c: Cursor): (r: Scan)
    requires c.pos <= |data|
    requires StringClosed(data, c.pos)
    ensures r.token.loc == CurrentLocation(c)
    ensures c.pos <= r.next.pos <= |data|
    ensures r.token.kind == Eof <==> c.pos == |data| || data[c.pos] == '\0'
    ensures r.token.kind == Eof ==> r.token.text == ""
    ensures c.pos == |data| ==> r.next == c
    ensures c.pos < |data| && data[c.pos] == '\0' ==> r.next.pos == c.pos + 1
    ensures r.token.kind == Newline <==> c.pos < |data| && data[c.pos] == '\n'
    ensures r.token.kind == Newline ==> r.token.text == "" && r.next.pos == c.pos + 1
    ensures r.token.kind == Space <==> c.pos < |data| && data[c.pos] == ' '
    ensures r.token.kind == Tab <==> c.pos < |data| && data[c.pos] == '\t'
    ensures r.token.kind == Tab ==> r.next.pos == c.pos + 1
    ensures r.token.kind == StringToken <==> c.pos < |data| && data[c.pos] == '#'
    ensures r.token.kind != Eof && r.token.kind != Newline ==>
              && |r.token.text| > 0
              && r.token.text == data[c.pos..r.next.pos]
  {
    var loc := CurrentLocation(c);
    var start := c.pos;
    var first := NextChar(data, c);
    var ch := first.ch;
    if ch == '\0' then Scan(Token("", loc, Eof), first.next)
    else if ch == '\n' then Scan(Token("", loc, Newline), first.next)
    else if ch == '\t' then Scan(Token(data[start..start + 1], loc, Tab), first.next)
    else if ch == ' ' then
      var e := Run(data, first.next, Spaces);
      Scan(Token(data[start..e.pos], loc, Space), e)
    else if IsPunctuation(ch) then
      Scan(Token(data[start..start + 1], loc, PunctuationKind(ch)), first.next)
    else if IsOperatorStart(ch) then
      var second := NextChar(data, first.next);
      if second.ch == '=' then
        Scan(Token(data[start..start + 2], loc, LongOperatorKind(ch)), second.next)
      else
        // the checkpoint is restored: only the first character is consumed
        Scan(Token(data[start..start + 1], loc, ShortOperatorKind(ch)), first.next)
    else if ch == '#' then
      var e := StringEnd(data, first.next);
      Scan(Token(data[start..e.pos], loc, StringToken), e)
    else if !IsWordChar(ch) then
      Scan(Token(data[start..start + 1], loc, Unknown), first.next)
    else
      var e := Run(data, first.next, Word);
      var w := data[start..e.pos];
      Scan(Token(w, loc, Classify(w)), e)
  }

  /** The cursor after skipping spaces, tabs and newlines one character at a time. */
  function SkipBlanks(data: string, c: Cursor): (r: Cursor)
    requires c.pos <= |data|
    decreases |data| - c.pos
    ensures c.pos <= r.pos <= |data|
    ensures forall i :: c.pos <= i < r.pos ==> IsBlankChar(data[i])
    ensures r.pos == |data| || !IsBlankChar(data[r.pos])
  {
    if IsBlankChar(PeekChar(data, c)) then SkipBlanks(data, NextChar(data, c).next) else c
  }

  /** Skipping one whitespace token leaves the blank-skipped cursor unchanged. */
  lemma BlankTokenKeepsSkip(data: string, c: Cursor)
    requires c.pos <= |data| && StringClosed(data, c.pos)
    requires IsBlankKind(NextToken(data, c).token.kind)
    ensures SkipBlanks(data, NextToken(data, c).next) == SkipBlanks(data, c)
  {
    var first := NextChar(data, c);
    if first.ch == ' ' {
      assert NextToken(data, c).next == Run(data, first.next, Spaces);
      SpaceRunKeepsSkip(data, first.next);
    } else {
      assert NextToken(data, c).next == first.next;
    }
  }

  lemma {:induction false} SpaceRunKeepsSkip(data: string, c: Cursor)
    requires c.pos <= |data|
    ensures SkipBlanks(data, Run(data, c, Spaces)) == SkipBlanks(data, c)
    decreases |data| - c.pos
  {
    if InRun(Spaces, PeekChar(data, c)) {
      SpaceRunKeepsSkip(data, NextChar(data, c).next);
    }
  }

  /** Scans tokens until one that is not a space, tab or newline. */
  function NextNWToken(data: string, c: Cursor): (r: Scan)
    requires c.pos <= |data|
    requires StringClosed(data, SkipBlanks(data, c).pos)
    decreases |data| - c.pos
    ensures !IsBlankKind(r.token.kind)
    ensures c.pos <= r.next.pos <= |data|
  {
    var s := NextToken(data, c);
    if IsBlankKind(s.token.kind) then
      BlankTokenKeepsSkip(data, c);
      NextNWToken(data, s.next)
    else s
  }
}
