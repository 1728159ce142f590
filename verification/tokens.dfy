/** Tokens shared by the tokenizer and the parser.

    The tokenizer and the parser of the original program spell some token
    kinds differently (the tokenizer says `BraceOpen` and `GreaterThanToken`,
    the parser `BracesOpen` and `GreaterToken`) and the parser also uses kinds
    the tokenizer never produces (`CommentToken`, `ProgramToken`,
    `BoolToken`). `TokenKind` is the superset of both, under one name each.
 */
module Tokens {

  /** A source position: line and column, both counted from 1. */
  datatype Location = Location(line: int, column: int)

  datatype TokenKind =
    | Eof
    | Newline
    | Space
    | Tab
    | ParenOpen
    | ParenClose
    | BracesOpen
    | BracesClose
    | PlusToken
    | MinusToken
    | MultiplyToken
    | DivideToken
    | SemicolonToken
    | GreaterToken
    | GreaterEqualToken
    | LessToken
    | LessEqualToken
    | EqualToken
    | NotEqualToken
    | AssignToken
    | NotToken
    | StringToken
    | IntToken
    | FloatToken
    | BoolToken
    | VarToken
    | PrintToken
    | IfToken
    | ElseToken
    | LetToken
    | CommentToken
    | ProgramToken
    | Unknown

  /** A classified lexical unit: its raw text, where it starts, and its kind. */
  datatype Token = Token(text: string, loc: Location, kind: TokenKind)

  /** Kinds the tokenizer uses for layout; the non-whitespace stream skips them. */
  predicate IsBlankKind(k: TokenKind) {
    k == Space || k == Tab || k == Newline
  }

  /** Kinds the scanner gives to a run of letters, digits and dots. */
  predicate IsWordKind(k: TokenKind) {
    k == IntToken || k == FloatToken || k == VarToken || k == PrintToken ||
    k == IfToken || k == ElseToken || k == LetToken
  }

  /** Kinds a factor may start with and that become a leaf node on their own. */
  predicate IsValueKind(k: TokenKind) {
    k == VarToken || k == FloatToken || k == IntToken || k == StringToken || k == BoolToken
  }

  /** The relational operators a comparison may contain. */
  predicate IsRelationalKind(k: TokenKind) {
    k == GreaterToken || k == LessToken || k == GreaterEqualToken ||
    k == LessEqualToken || k == EqualToken || k == NotEqualToken
  }
}
