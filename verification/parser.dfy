/** The recursive-descent parser.

    The original parser pulls tokens from the scanner one at a time and keeps
    a two-token window: the token under inspection and the one before it. Here
    the token stream is a sequence that ends in `Eof`, the window is a `State`
    holding the previous token and the index of the current one, and advancing
    past the final `Eof` stays on it, as a scanner at the end of its input
    keeps answering `Eof`.

    Every grammar rule is a function returning either the node it built with
    the state after it, or the error (kind and location) it raised. The rules
    are mutually recursive; each one is measured by the number of tokens left
    and, between rules that call each other without consuming a token, by a
    fixed rank.
 */
module Parser {
  import opened Tokens

  datatype Option<T> = None | Some(value: T)

  /** Syntax tree. A `Leaf` is a binary-operation node without operands. */
  datatype Node =
    | Leaf(token: Token)
    | Binary(op: Token, left: Node, right: Node)
    | Conditional(token: Token, condition: Node, thenBlock: Node, elseBlock: Option<Node>)
    | Block(token: Token, children: seq<Node>)

  /** The errors the parser raises, one per message it can produce. */
  datatype ErrorKind =
    | MissingNewline(before: string)   // a statement not followed by a separator
    | IfNotOnNewLine                   // `if` not at the start of a line or program
    | MissingOpeningParen              // a condition not starting with `(`
    | MissingClosingBraces             // a condition not closed by `)`; the message says braces
    | MissingClosingParen              // a parenthesised factor not closed by `)`
    | MissingOpeningBraces             // a block not starting with `{`
    | UnexpectedElse                   // `else` in factor position
    | UnexpectedClosingParen           // `)` in factor position
    | AssignmentInPrint                // the message raised for `Eof` in factor position
    | UnexpectedEndOfFile              // the message raised for `=` in factor position
    | UnexpectedToken(text: string)    // any other token in factor position

  datatype ParseError = ParseError(kind: ErrorKind, loc: Location)

  /** The parser's window: the previous token and the index of the current one. */
  datatype State = State(prev: Token, cur: nat)

  /** A rule's outcome: the value built and the state after it, or an error. */
  datatype Result<T> = Ok(value: T, st: State) | Err(error: ParseError)

  /** Outcome of a whole parse: whether any statement was parsed, and the root. */
  datatype Outcome = Accepted(nonEmpty: bool, root: Node) | Rejected(error: ParseError)

  /** The token in the window before the first token is read. */
  const ProgramStart := Token("", Location(0, 0), ProgramToken)

  /** Marker tokens of the two branches of a conditional. */
  const ThenMarker := Token("then", Location(0, 0), ElseToken)
  const ElseMarker := Token("Else", Location(0, 0), ElseToken)

  /** A token stream as the scanner delivers it: non-empty and ending in `Eof`. */
  predicate IsStream(toks: seq<Token>) {
    |toks| > 0 && toks[|toks| - 1].kind == Eof
  }

  predicate Valid(toks: seq<Token>, s: State) {
    s.cur < |toks|
  }

  function Cur(toks: seq<Token>, s: State): Token
    requires Valid(toks, s)
  {
    toks[s.cur]
  }

  /** Shifts the window by one token; at the final `Eof` the stream stays put. */
  function Advance(toks: seq<Token>, s: State): (s': State)
    requires IsStream(toks) && Valid(toks, s)
    ensures Valid(toks, s')
    ensures s'.prev == Cur(toks, s)
    ensures s.cur + 1 < |toks| ==> s'.cur == s.cur + 1
    ensures s.cur + 1 == |toks| ==> s'.cur == s.cur && Cur(toks, s').kind == Eof
    ensures Cur(toks, s).kind != Eof ==> s'.cur == s.cur + 1
  {
    State(Cur(toks, s), if s.cur + 1 < |toks| then s.cur + 1 else s.cur)
  }

  /** The statement separator: the current token ends a line or the input,
      or the previous token was a newline. */
  predicate ExpectNewlineOrEof(toks: seq<Token>, s: State)
    requires Valid(toks, s)
  {
    var k := Cur(toks, s).kind;
    k == Newline || k == Eof || k == CommentToken || s.prev.kind == Newline
  }

  /** Skips newline and comment tokens. */
  function AdvancePastNewlines(toks: seq<Token>, s: State): (r: State)
    requires IsStream(toks) && Valid(toks, s)
    decreases |toks| - s.cur
    ensures Valid(toks, r) && s.cur <= r.cur
    ensures Cur(toks, r).kind != Newline && Cur(toks, r).kind != CommentToken
    ensures forall i :: s.cur <= i < r.cur ==> toks[i].kind == Newline || toks[i].kind == CommentToken
  {
    var k := Cur(toks, s).kind;
    if k == Newline || k == CommentToken then AdvancePastNewlines(toks, Advance(toks, s)) else s
  }

  /** Skips newline tokens only. */
  function SkipNewlines(toks: seq<Token>, s: State): (r: State)
    requires IsStream(toks) && Valid(toks, s)
    decreases |toks| - s.cur
    ensures Valid(toks, r) && s.cur <= r.cur
    ensures Cur(toks, r).kind != Newline
    ensures forall i :: s.cur <= i < r.cur ==> toks[i].kind == Newline
  {
    if Cur(toks, s).kind == Newline then SkipNewlines(toks, Advance(toks, s)) else s
  }

  /** The error a factor raises on a token that cannot start one. */
  function FactorError(t: Token): ErrorKind
  {
    match t.kind
    case ElseToken => UnexpectedElse
    case ParenClose => UnexpectedClosingParen
    case Eof => AssignmentInPrint
    case AssignToken => UnexpectedEndOfFile
    case _ => UnexpectedToken(t.text)
  }

  // ---------------------------------------------------------------------------
  // Grammar rules. Ranks (second component of `decreases`), highest first:
  // BlockItems 8, Statement 7, Conditional and Print 6, Assignment 5,
  // Expression 4, ExpressionTail and Term 3, Factor and ConditionalElse 2,
  // Comparison and Block 1.

  function ParseStatement(toks: seq<Token>, s: State): (r: Result<Node>)
    requires IsStream(toks) && Valid(toks, s)
    decreases |toks| - s.cur, 7
    ensures r.Ok? ==> Valid(toks, r.st) && s.cur < r.st.cur
  {
    var k := Cur(toks, s).kind;
    if k == CommentToken || k == Newline then ParseStatement(toks, Advance(toks, s))
    else if k == IfToken then ParseConditional(toks, s)
    else if k == PrintToken then ParsePrint(toks, s)
    else ParseExpression(toks, s)
  }

  function ParseExpression(toks: seq<Token>, s: State): (r: Result<Node>)
    requires IsStream(toks) && Valid(toks, s)
    decreases |toks| - s.cur, 4
    ensures r.Ok? ==> Valid(toks, r.st) && s.cur < r.st.cur
  {
    match ParseTerm(toks, s)
    case Err(e) => Err(e)
    case Ok(left, s1) => ExpressionTail(toks, s1, left)
  }

  /** The `+`/`-` loop of an expression, with the left operand built so far. */
  function ExpressionTail(toks: seq<Token>, s: State, left: Node): (r: Result<Node>)
    requires IsStream(toks) && Valid(toks, s)
    decreases |toks| - s.cur, 3
    ensures r.Ok? ==> Valid(toks, r.st) && s.cur <= r.st.cur
    ensures r.Ok? ==> Cur(toks, r.st).kind != PlusToken && Cur(toks, r.st).kind != MinusToken
  {
    var op := Cur(toks, s);
    if op.kind == PlusToken || op.kind == MinusToken then
      match ParseTerm(toks, Advance(toks, s))
      case Err(e) => Err(e)
      case Ok(right, s2) => ExpressionTail(toks, s2, Binary(op, left, right))
    else Ok(left, s)
  }

  function ParseTerm(toks: seq<Token>, s: State): (r: Result<Node>)
    requires IsStream(toks) && Valid(toks, s)
    decreases |toks| - s.cur, 3
    ensures r.Ok? ==> Valid(toks, r.st) && s.cur < r.st.cur
  {
    match ParseFactor(toks, s)
    case Err(e) => Err(e)
    case Ok(left, s1) =>
      var s2 := Advance(toks, s1);
      if Cur(toks, s2).kind == Eof then Ok(left, s2)
      else ParseAssignment(toks, s2, left)
  }

  /** Takes the current token, whatever it is, as the operator of a binary
      node whose right operand is the expression after it. */
  function ParseAssignment(toks: seq<Token>, s: State, left: Node): (r: Result<Node>)
    requires IsStream(toks) && Valid(toks, s)
    decreases |toks| - s.cur, 5
    ensures r.Ok? ==> Valid(toks, r.st) && s.cur <= r.st.cur
    ensures r.Ok? ==> r.value.Binary? && r.value.op == Cur(toks, s) && r.value.left == left
  {
    var op := Cur(toks, s);
    match ParseExpression(toks, Advance(toks, s))
    case Err(e) => Err(e)
    case Ok(right, s1) => Ok(Binary(op, left, right), s1)
  }

  function ParseFactor(toks: seq<Token>, s: State): (r: Result<Node>)
    requires IsStream(toks) && Valid(toks, s)
    decreases |toks| - s.cur, 2
    ensures r.Ok? ==> Valid(toks, r.st) && s.cur <= r.st.cur && Cur(toks, r.st).kind != Eof
    ensures r.Err? && Cur(toks, s).kind != ParenOpen ==> r.error.loc == Cur(toks, s).loc
  {
    var t := Cur(toks, s);
    if IsValueKind(t.kind) then Ok(Leaf(t), s)
    else if t.kind == ParenOpen then
      match ParseExpression(toks, Advance(toks, s))
      case Err(e) => Err(e)
      case Ok(inner, s1) =>
        if Cur(toks, s1).kind != ParenClose then Err(ParseError(MissingClosingParen, Cur(toks, s1).loc))
        else Ok(inner, s1)
    else Err(ParseError(FactorError(t), t.loc))
  }

  /** `if` condition block, optionally followed by `else` block. */
  function ParseConditional(toks: seq<Token>, s: State): (r: Result<Node>)
    requires IsStream(toks) && Valid(toks, s)
    decreases |toks| - s.cur, 6
    ensures r.Ok? ==> Valid(toks, r.st) && s.cur < r.st.cur
    ensures r.Ok? ==> s.prev.kind == Newline || s.prev.kind == ProgramToken
  {
    if s.prev.kind != Newline && s.prev.kind != ProgramToken then
      Err(ParseError(IfNotOnNewLine, Cur(toks, s).loc))
    else
      var ifToken := Cur(toks, s);
      match ParseComparison(toks, Advance(toks, s))
      case Err(e) => Err(e)
      case Ok(cond, s1) =>
        match ParseBlock(toks, Advance(toks, s1), ThenMarker)
        case Err(e) => Err(e)
        case Ok(thenBlock, s2) => ConditionalElse(toks, s2, ifToken, cond, thenBlock)
  }

  /** The optional `else` block after a conditional's first block. */
  function ConditionalElse(toks: seq<Token>, s: State, ifToken: Token, cond: Node, thenBlock: Node): (r: Result<Node>)
    requires IsStream(toks) && Valid(toks, s)
    decreases |toks| - s.cur, 2
    ensures r.Ok? ==> Valid(toks, r.st) && s.cur <= r.st.cur
    ensures r.Ok? ==> r.value.Conditional? && r.value.token == ifToken
    ensures r.Ok? ==> r.value.condition == cond && r.value.thenBlock == thenBlock
  {
    var s1 := SkipNewlines(toks, s);
    if Cur(toks, s1).kind == ElseToken then
      match ParseBlock(toks, Advance(toks, s1), ElseMarker)
      case Err(e) => Err(e)
      case Ok(elseBlock, s2) => Ok(Conditional(ifToken, cond, thenBlock, Some(elseBlock)), s2)
    else Ok(Conditional(ifToken, cond, thenBlock, None), s1)
  }

  /** `(` expression, optionally a relational operator and a second
      expression, then `)`; the closing `)` is left as the current token. */
  function ParseComparison(toks: seq<Token>, s: State): (r: Result<Node>)
    requires IsStream(toks) && Valid(toks, s)
    decreases |toks| - s.cur, 1
    ensures r.Ok? ==> Valid(toks, r.st) && s.cur < r.st.cur && Cur(toks, r.st).kind == ParenClose
  {
    if Cur(toks, s).kind != ParenOpen then Err(ParseError(MissingOpeningParen, Cur(toks, s).loc))
    else
      match ParseExpression(toks, Advance(toks, s))
      case Err(e) => Err(e)
      case Ok(left, s1) =>
        var op := Cur(toks, s1);
        if IsRelationalKind(op.kind) then
          match ParseExpression(toks, Advance(toks, s1))
          case Err(e) => Err(e)
          case Ok(right, s2) => CloseComparison(toks, s2, Binary(op, left, right))
        else CloseComparison(toks, s1, left)
  }

  function CloseComparison(toks: seq<Token>, s: State, n: Node): (r: Result<Node>)
    requires Valid(toks, s)
    ensures r.Ok? ==> r == Ok(n, s) && Cur(toks, s).kind == ParenClose
    ensures r.Err? ==> r.error == ParseError(MissingClosingBraces, Cur(toks, s).loc)
  {
    if Cur(toks, s).kind != ParenClose then Err(ParseError(MissingClosingBraces, Cur(toks, s).loc))
    else Ok(n, s)
  }

  /** Newlines, `{`, statements separated by newlines, `}`. The block node is
      tagged with `what`; the closing `}` is consumed. */
  function ParseBlock(toks: seq<Token>, s: State, what: Token): (r: Result<Node>)
    requires IsStream(toks) && Valid(toks, s)
    decreases |toks| - s.cur, 1
    ensures r.Ok? ==> Valid(toks, r.st) && s.cur < r.st.cur
    ensures r.Ok? ==> r.value.Block? && r.value.token == what && r.st.prev.kind == BracesClose
  {
    var s1 := SkipNewlines(toks, s);
    if Cur(toks, s1).kind != BracesOpen then Err(ParseError(MissingOpeningBraces, Cur(toks, s1).loc))
    else
      match BlockItems(toks, Advance(toks, s1), [])
      case Err(e) => Err(e)
      case Ok(items, s2) => Ok(Block(what, items), Advance(toks, s2))
  }

  /** The statement loop of a block, with the statements collected so far.
      It stops only on `}`, which it leaves as the current token. */
  function BlockItems(toks: seq<Token>, s: State, acc: seq<Node>): (r: Result<seq<Node>>)
    requires IsStream(toks) && Valid(toks, s)
    decreases |toks| - s.cur, 8
    ensures r.Ok? ==> Valid(toks, r.st) && s.cur <= r.st.cur && Cur(toks, r.st).kind == BracesClose
  {
    if Cur(toks, s).kind == BracesClose then Ok(acc, s)
    else
      var s1 := SkipNewlines(toks, s);
      if Cur(toks, s1).kind == BracesClose then Ok(acc, s1)
      else
        match ParseStatement(toks, s1)
        case Err(e) => Err(e)
        case Ok(statement, s2) => BlockItems(toks, SkipNewlines(toks, s2), acc + [statement])
  }

  /** `print` expression, wrapped as a one-child block tagged with `print`. */
  function ParsePrint(toks: seq<Token>, s: State): (r: Result<Node>)
    requires IsStream(toks) && Valid(toks, s)
    decreases |toks| - s.cur, 6
    ensures r.Ok? ==> Valid(toks, r.st) && s.cur < r.st.cur
    ensures r.Ok? ==> r.value.Block? && r.value.token == Cur(toks, s) && |r.value.children| == 1
  {
    var printToken := Cur(toks, s);
    match ParseExpression(toks, Advance(toks, s))
    case Err(e) => Err(e)
    case Ok(e, s1) => Ok(Block(printToken, [e]), s1)
  }

  // ---------------------------------------------------------------------------
  // The driver

  /** Statements until `Eof`, each followed by a separator and any newlines. */
  function ProgramItems(toks: seq<Token>, s: State, acc: seq<Node>): (r: Result<seq<Node>>)
    requires IsStream(toks) && Valid(toks, s)
    decreases |toks| - s.cur
    ensures r.Ok? ==> Valid(toks, r.st) && Cur(toks, r.st).kind == Eof
    ensures r.Ok? ==> |acc| <= |r.value| && r.value[..|acc|] == acc
    ensures r.Ok? && Cur(toks, s).kind != Eof ==> |acc| < |r.value|
  {
    if Cur(toks, s).kind == Eof then Ok(acc, s)
    else
      match ParseStatement(toks, s)
      case Err(e) => Err(e)
      case Ok(statement, s1) =>
        if !ExpectNewlineOrEof(toks, s1) then
          Err(ParseError(MissingNewline(Cur(toks, s1).text), Cur(toks, s1).loc))
        else ProgramItems(toks, AdvancePastNewlines(toks, s1), acc + [statement])
  }

  /** Parses a whole token stream into a program block; `nonEmpty` is the
      boolean the original returns. */
  function ParseTokens(toks: seq<Token>): (r: Outcome)
    requires IsStream(toks)
    ensures r.Accepted? ==> r.root.Block? && r.root.token == ProgramStart
    ensures r.Accepted? ==> (r.nonEmpty <==> |r.root.children| > 0)
    ensures r.Accepted? && !r.nonEmpty ==> toks[0].kind == Eof
  {
    match ProgramItems(toks, State(ProgramStart, 0), [])
    case Err(e) => Rejected(e)
    case Ok(items, _) => Accepted(|items| > 0, Block(ProgramStart, items))
  }
}
