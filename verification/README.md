# KalculatorApp scanner and parser, modelled in Dafny

KalculatorApp's CuriousX language has two front-end stages, and this project models both as pure functions.

- **Scanner** (`LexicalAnalysis/include/Lexer.hpp`). It splits a source string into tokens of the form `{text, location, kind}`. It keeps a cursor made of offset, column and line.
- **Parser** (`CuriousX/Parser/Parser.cpp`). It is a recursive-descent parser that turns a token stream into a syntax tree. It looks at a two-token window: the previous token and the current one.

## Modules

- `tokens.dfy`, module `Tokens`. It defines the token kinds, the token record and the source location.
  - One kind set serves both stages. The scanner's `BraceOpen`, `BraceClose`, `GreaterThanToken` and `LessThanToken` appear under the parser's spellings: `BracesOpen`, `BracesClose`, `GreaterToken` and `LessToken`.
  - `LexerToken.hpp`, `SourceLocation.hpp` and `Parser.hpp` are not part of this model.
- `lexer.dfy`, module `Lexer`. It models the scanner.
  - The cursor is a value, and every scanning step maps (buffer, cursor) to (result, cursor after it).
  - The one-slot checkpoint used for `>`, `<`, `=` and `!` becomes plain lookahead.
  - `SkipBlanks` is an independent reference for what `nextNWToken` skips. `NewlineCount` and `ColumnAfter` are an independent reference for line and column.
- `lexer_facts.dfy`, module `LexerFacts`. It holds lemmas about the scanner:
  - line and column bookkeeping;
  - operator lookahead;
  - maximal runs and string literals;
  - the table of fixed spellings;
  - worked examples.
- `parser.dfy`, module `Parser`. It models the parser.
  - The token stream is a sequence ending in `Eof`. The window is `State(prev, cur)`. Advancing past the last `Eof` stays on it.
  - Each grammar rule returns `Ok(node, state)` or `Err(ParseError(kind, location))`, one error kind per message.
  - Before the first token is read, the previous token is assumed to be a `ProgramToken` marker, `ProgramStart`. This matters because `if` is only accepted after a newline or at the start of the program.
- `parser_facts.dfy`, module `ParserFacts`. It states what the parser as written accepts.
- `parser_examples.dfy`, module `ParserExamples`. It holds whole-program examples.

## What the parser as written does

The grammar comments (`Parser.cpp:65-68`, `83-86`) describe a conventional expression grammar. The code does something else.

After a factor, `parseTerm` advances once. If the new token is not `Eof`, it takes that token, whatever its kind, as the operator of a binary node, and parses the rest as an expression (`Parser.cpp:88-99`). The `*`/`/` loop after the `return` (`Parser.cpp:101-108`) is unreachable.

Consequently, every normal return of a term or an expression leaves `Eof` as the current token. The model proves this (`ParserFacts.TermEndsAtEof`) and its consequences:

- the `+`/`-` loop never iterates;
- expressions are exactly the chains `value (token value)*` before `Eof`, nested to the right, so `1 * 2 + 3` is `1 * (2 + 3)`;
- a parenthesised factor and a comparison always fail;
- a conditional never succeeds;
- a block succeeds only when it is empty;
- a program holds at most one statement;
- the missing-newline error is never raised.

The error messages for `Eof` and for `=` in factor position are swapped (`Parser.cpp:153-157`). The model keeps the swap: `Eof` raises `AssignmentInPrint` and `=` raises `UnexpectedEndOfFile`.

## Model

| member | source | states |
|---|---|---|
| Lexer.PeekChar | LexicalAnalysis/include/Lexer.hpp:73-77 | It sees exactly the character that the next read will return (NUL at the end), which is what lets the runs stop before the first character outside their class. |
| Lexer.Run | LexicalAnalysis/include/Lexer.hpp:155-173 | Every character it passes belongs to the run's class, and the character it stops at does not (or the buffer ends). The column grows by the run's length and the line is unchanged. |
| Lexer.StringEnd | LexicalAnalysis/include/Lexer.hpp:122-126 | It stops just after the first `#` at or after the cursor. No `#` lies before that point. |
| Lexer.Classify | LexicalAnalysis/include/Lexer.hpp:133-151 | `IntToken` iff all characters are digits. `FloatToken` iff all are digits or dots but not all digits. `print`/`Print`, `if`, `else` and `let` are keywords only when not numeric. Everything else is `VarToken`. The result is always a word kind. |
| Lexer.NextToken | LexicalAnalysis/include/Lexer.hpp:79-152 | The token is located at the cursor's line and column. `Eof` iff the buffer has ended or the character is NUL; it has empty text and does not move at the end. `Newline` iff the character is `\n`; it has empty text and advances one. `Space`, `Tab` and `StringToken` each iff the character is a space, tab or `#`. Every other token's text is exactly the characters consumed, and is non-empty. |
| Lexer.SkipBlanks | LexicalAnalysis/include/Lexer.hpp:26-32 | It is a reference for whitespace skipping. It passes only spaces, tabs and newlines, and stops on the first other character or at the end. |
| Lexer.BlankTokenKeepsSkip | LexicalAnalysis/include/Lexer.hpp:26-32 | Scanning one whitespace token does not change where character-level blank skipping lands. |
| Lexer.NextNWToken | LexicalAnalysis/include/Lexer.hpp:26-32 | The token returned is never `Space`, `Tab` or `Newline`. |
| Lexer.PunctuationKind | LexicalAnalysis/include/Lexer.hpp:88-96 | A one-character punctuation kind is never a word kind. The full table is in LexerFacts.FixedSpellingAlone. |
| Lexer.ShortOperatorKind | LexicalAnalysis/include/Lexer.hpp:97-120 | A one-character operator kind is never a word kind. |
| Lexer.LongOperatorKind | LexicalAnalysis/include/Lexer.hpp:97-120 | A two-character operator kind is never a word kind. |
| LexerFacts.StartIsConsistent | LexicalAnalysis/include/Lexer.hpp:18-24 | A fresh scanner's cursor (offset 0, line 1, column 1) agrees with the reference line and column. |
| LexerFacts.NextCharKeepsConsistent | LexicalAnalysis/include/Lexer.hpp:62-71 | Reading a character keeps the line equal to 1 plus the newlines before the offset, and the column equal to the reference column. |
| LexerFacts.RunKeepsConsistent | LexicalAnalysis/include/Lexer.hpp:155-173 | A greedy run keeps line and column in agreement with the offset. |
| LexerFacts.StringEndKeepsConsistent | LexicalAnalysis/include/Lexer.hpp:122-126 | Reading a string literal, which may span lines, keeps line and column in agreement with the offset. |
| LexerFacts.SkipBlanksKeepsConsistent | LexicalAnalysis/include/Lexer.hpp:26-32 | Blank skipping keeps line and column in agreement with the offset. |
| LexerFacts.NextTokenKeepsConsistent | LexicalAnalysis/include/Lexer.hpp:48-152 | Every scan step keeps line and column in agreement with the offset, including after a restored checkpoint. |
| LexerFacts.NextNWTokenKeepsConsistent | LexicalAnalysis/include/Lexer.hpp:26-32 | Whitespace-skipping scans keep line and column in agreement with the offset. |
| LexerFacts.EofIsFixpoint | LexicalAnalysis/include/Lexer.hpp:62-84 | At the end of input both entry points return `Eof` with empty text at the cursor's location, and the cursor does not move. |
| LexerFacts.OperatorLookahead | LexicalAnalysis/include/Lexer.hpp:97-120 | For `>` `<` `=` `!`: a following `=` gives the two-character kind with text `c=`. Otherwise exactly one character is consumed, as if the lookahead never happened. |
| LexerFacts.PunctuationAnywhere | LexicalAnalysis/include/Lexer.hpp:88-96 | At any offset, a punctuation character scans to a token of that character's punctuation kind, holding just that character and located at the cursor; the cursor moves one character. |
| LexerFacts.WordTokenShape | LexicalAnalysis/include/Lexer.hpp:129-173 | A letter, digit or dot starts a token that is the whole run, classified by Classify. |
| LexerFacts.WordTokenStart | LexicalAnalysis/include/Lexer.hpp:129-133 | The token has a number, keyword or identifier kind iff the current character is a letter, digit or dot. |
| LexerFacts.SpaceRunIsMaximal | LexicalAnalysis/include/Lexer.hpp:155-161 | A space token consists only of spaces, and the next character is not a space. |
| LexerFacts.WordRunIsMaximal | LexicalAnalysis/include/Lexer.hpp:163-179 | A number, keyword or identifier token consists only of letters, digits and dots, and the next character is not one. |
| LexerFacts.StringTokenShape | LexicalAnalysis/include/Lexer.hpp:122-126 | A `#` starts a string token running up to and including the next `#`. |
| LexerFacts.StringLiteralShape | LexicalAnalysis/include/Lexer.hpp:122-126 | A string token is at least two characters long, starts and ends with `#`, and has no `#` inside. |
| LexerFacts.UnknownIsOneCharacter | LexicalAnalysis/include/Lexer.hpp:129-131 | A token is `Unknown` iff its character belongs to no known class. It is then exactly that one character. |
| LexerFacts.NextNWTokenScansFirstSolid | LexicalAnalysis/include/Lexer.hpp:26-32 | Skipping whitespace token by token gives the same result as skipping blank characters and then scanning once. |
| LexerFacts.SolidTokenLocation | LexicalAnalysis/include/Lexer.hpp:26-71 | A non-whitespace token's location is 1 plus the newlines before its offset, together with the reference column of that offset. |
| LexerFacts.FirstTokenOfPositionExample | LexicalAnalysis/include/Lexer.hpp:79-152 | In `a\nbb`, `a` is an identifier at (1,1). |
| LexerFacts.SecondLineOfPositionExample | LexicalAnalysis/include/Lexer.hpp:62-85 | In `a\nbb`, the newline sits at (1,2), and `bb` is an identifier at (2,1). |
| LexerFacts.PositionExample | LexicalAnalysis/include/Lexer.hpp:26-40 | Skipping whitespace, `a\nbb` yields `a` at (1,1) and then `bb` at (2,1). |
| LexerFacts.NotExample | LexicalAnalysis/include/Lexer.hpp:115-120 | `!x` starts with a one-character `NotToken`, and the cursor is back just after `!`. |
| LexerFacts.NotExampleRest | LexicalAnalysis/include/Lexer.hpp:133-151 | The `x` of `!x` is then an identifier at column 2. |
| LexerFacts.OneCharacterSpelling | LexicalAnalysis/include/Lexer.hpp:88-120 | A punctuation or operator character alone scans to one token of its kind, then `Eof`. |
| LexerFacts.TwoCharacterSpelling | LexicalAnalysis/include/Lexer.hpp:97-120 | An operator character followed by `=` scans to one two-character token, then `Eof`. |
| LexerFacts.FixedSpellingAlone | LexicalAnalysis/include/Lexer.hpp:88-120 | Each of the 17 fixed spellings, scanned alone, gives one token of the kind in an explicit table, covering its whole text, then `Eof`. |
| LexerFacts.NumberExamples | LexicalAnalysis/include/Lexer.hpp:135-141 | `123` is an integer; `12.5` and `12.5.6` are floats. |
| LexerFacts.KeywordExamples | LexicalAnalysis/include/Lexer.hpp:142-150 | `print`, `Print`, `if`, `else` and `let` are keywords. |
| LexerFacts.IdentifierExamples | LexicalAnalysis/include/Lexer.hpp:142-151 | `printer`, `ifx` and `12ab` are identifiers. |
| Parser.Advance | CuriousX/Parser/Parser.cpp:39-44 | The new previous token is the old current token. The window moves one token, except at the final `Eof`, where it stays. |
| Parser.AdvancePastNewlines | CuriousX/Parser/Parser.cpp:33-37 | Every token skipped is a newline or a comment, and the token it stops on is neither. |
| Parser.SkipNewlines | CuriousX/Parser/Parser.cpp:231-232 | Every token skipped is a newline, and the token it stops on is not. |
| Parser.ParseStatement | CuriousX/Parser/Parser.cpp:46-63 | A statement that succeeds has consumed at least one token. |
| Parser.ParseExpression | CuriousX/Parser/Parser.cpp:70-81 | An expression that succeeds has consumed at least one token. |
| Parser.ExpressionTail | CuriousX/Parser/Parser.cpp:73-79 | The `+`/`-` loop stops only on a token that is neither `+` nor `-`. |
| Parser.ParseTerm | CuriousX/Parser/Parser.cpp:88-99 | A term that succeeds has consumed at least one token. |
| Parser.ParseAssignment | CuriousX/Parser/Parser.cpp:112-118 | The result is a binary node whose operator is the current token and whose left operand is the one given. |
| Parser.ParseFactor | CuriousX/Parser/Parser.cpp:125-164 | A factor that succeeds leaves a non-`Eof` current token. A failure not starting at `(` is reported at the current token's location. |
| Parser.ParseConditional | CuriousX/Parser/Parser.cpp:173-203 | A conditional succeeds only when the previous token is a newline or the program-start marker. |
| Parser.ConditionalElse | CuriousX/Parser/Parser.cpp:192-202 | The conditional node keeps the `if` token, the condition and the first block it was given. |
| Parser.ParseComparison | CuriousX/Parser/Parser.cpp:205-227 | A comparison that succeeds leaves `)` as the current token. |
| Parser.ParseBlock | CuriousX/Parser/Parser.cpp:229-262 | A block that succeeds is tagged with the given marker and has consumed a `}`. |
| Parser.BlockItems | CuriousX/Parser/Parser.cpp:242-255 | The statement loop of a block stops normally only on `}`. |
| Parser.ParsePrint | CuriousX/Parser/Parser.cpp:270-280 | A print statement is a block tagged with the `print` token, with exactly one child. |
| Parser.ProgramItems | CuriousX/Parser/Parser.cpp:8-21 | The statement loop stops normally only on `Eof`, and keeps the statements collected so far as a prefix. It adds at least one statement when the stream does not start at `Eof`. |
| Parser.ParseTokens | CuriousX/Parser/Parser.cpp:3-24 | The root is the block tagged with the program marker. The returned flag is true iff the root has children, and it is false only when the stream starts with `Eof`. |
| ParserFacts.FactorOutcome | CuriousX/Parser/Parser.cpp:125-171 | A factor succeeds iff the current token is a value (variable, number, string or boolean). It then returns a leaf of that token without advancing, so a `(` factor always fails. |
| ParserFacts.TermEndsAtEof | CuriousX/Parser/Parser.cpp:88-99 | A term that returns normally leaves `Eof` as the current token. |
| ParserFacts.ExpressionEndsAtEof | CuriousX/Parser/Parser.cpp:70-81 | An expression that returns normally leaves `Eof` as the current token. |
| ParserFacts.ExpressionIsTerm | CuriousX/Parser/Parser.cpp:73-79 | The `+`/`-` loop never iterates: an expression parses exactly as a term. |
| ParserFacts.ExpressionStep | CuriousX/Parser/Parser.cpp:88-118 | From a value, an expression is the value alone if `Eof` follows. Otherwise it is a binary node: the value, the next token as operator, and the expression after that. |
| ParserFacts.FactorErrors | CuriousX/Parser/Parser.cpp:142-163 | Each non-value token other than `(` raises its own error at its own location. `Eof` gets the assignment message and `=` the end-of-file message. |
| ParserFacts.ExpressionAcceptsChain | CuriousX/Parser/Parser.cpp:70-118 | Soundness: an accepted expression covers a chain `value (token value)*` that ends just before `Eof`. Its tree nests every operator to the right. |
| ParserFacts.ExpressionParsesChain | CuriousX/Parser/Parser.cpp:70-118 | Completeness: every such chain before `Eof` is accepted, with the right-nested tree, stopping on that `Eof`. |
| ParserFacts.ComparisonFails | CuriousX/Parser/Parser.cpp:205-227 | A comparison never succeeds. Without `(` it reports the missing parenthesis. After an inner expression it reports the missing closer at the `Eof` it stopped on. |
| ParserFacts.ConditionalFails | CuriousX/Parser/Parser.cpp:173-203 | A conditional never succeeds. An `if` that does not start a line fails for that reason first. |
| ParserFacts.StatementEndsAtEof | CuriousX/Parser/Parser.cpp:46-63 | A statement that returns normally leaves `Eof` as the current token and is never a conditional. |
| ParserFacts.SeparatorAlwaysPresent | CuriousX/Parser/Parser.cpp:15-31 | After a successful statement the separator check passes and there is nothing to skip, so the missing-newline error is never raised. |
| ParserFacts.BlockItemsFailAtEof | CuriousX/Parser/Parser.cpp:242-255 | A block's statement loop that reaches `Eof` fails. |
| ParserFacts.BlockItemsAddNothing | CuriousX/Parser/Parser.cpp:242-258 | A block's statement loop succeeds only on `}` after blank lines, and adds no statement. The check at lines 257-258 is therefore never reached with anything but `}`. |
| ParserFacts.BlockOutcome | CuriousX/Parser/Parser.cpp:229-262 | A block fails with the opening-braces error unless its first non-newline token is `{`. When it succeeds it is empty and its `}` has been consumed. |
| ParserFacts.PrintOutcome | CuriousX/Parser/Parser.cpp:270-280 | A successful print is a one-child block tagged with `print`, whose child is the right-nested tree of the chain after it. |
| ParserFacts.ProgramIsFirstStatement | CuriousX/Parser/Parser.cpp:3-24 | The whole parse is decided by the first statement. An `Eof`-only stream is accepted empty. Otherwise the first statement's error rejects the program, or its tree is the only child. |
| ParserFacts.ProgramHasAtMostOneStatement | CuriousX/Parser/Parser.cpp:3-24 | An accepted program has no children iff the stream starts with `Eof`. Otherwise it has exactly one child, which is not a conditional. |
| ParserFacts.RejectionIsFirstStatementError | CuriousX/Parser/Parser.cpp:10-19 | A rejection is always the first statement's own error, never a missing separator. |
| ParserExamples.PrintTwoValues | CuriousX/Parser/Parser.cpp:153-154 | `print 1 2` is rejected with the assignment message at the final `Eof`. |
| ParserExamples.ConditionWithoutParentheses | CuriousX/Parser/Parser.cpp:205-208 | `if 1 > 0 { print 1 }` is rejected for the missing `(` at `1`. |
| ParserExamples.ConditionExpressionFails | CuriousX/Parser/Parser.cpp:159-162 | Inside `(1 > 0) {`, `>` and `)` are taken as operators, and `{` fails as a factor. |
| ParserExamples.ConditionComparisonFails | CuriousX/Parser/Parser.cpp:205-211 | The comparison of `if (1 > 0) { print 1 }` fails with that factor error. |
| ParserExamples.ConditionWithParentheses | CuriousX/Parser/Parser.cpp:173-185 | `if (1 > 0) { print 1 }` is rejected at `{`. |
| ParserExamples.ArithmeticTail | CuriousX/Parser/Parser.cpp:88-118 | `2 + 3` after `1 *` parses to the binary node `2 + 3`. |
| ParserExamples.ArithmeticStatement | CuriousX/Parser/Parser.cpp:46-118 | `1 * 2 + 3` parses as the single statement `1 * (2 + 3)`. |
| ParserExamples.NoPrecedence | CuriousX/Parser/Parser.cpp:88-99 | The program `1 * 2 + 3` is accepted with the one child `1 * (2 + 3)`. |

## Left out

- Integer width: the scanner's offset, line and column are `unsigned` in the source, and the start offsets and lengths in `doGetNextToken`, `fetch_consecutive` and `next_valid_sequences` (`Lexer.hpp:123`, `155`, `163`) are `int`. All are modelled as unbounded naturals. Wrap-around or overflow on inputs of 2^31 characters or more is not modelled.
- Characters: the source scans a `std::string` byte by byte. Each `char` of the modelled buffer stands for one byte, so UTF-8 text is given as its bytes. A non-ASCII character written as one Dafny `char` would be one `Unknown` token in the model, but it is several bytes, and so several `Unknown` tokens and several columns, in the source.
- Lexer.NextToken: it requires that an opening `#` has a closing `#` after it. Without one, the source loops forever, because the character reader keeps returning NUL at the end.
- Embedded NUL characters are modelled as the source treats them: the scanner returns `Eof` but moves past the character.
- The recording of every token and of the final tree into the compiler-output singleton (`Parser.cpp:22`, `43`) is left out. It is output-only.
- `Utils/CompilerOutputParser.hpp` (JSON output and file I/O) is not part of this model.
- The commented-out semantic analysis call (`Parser.cpp:12`) is not part of this model.
- Syntax-tree ownership (`unique_ptr`, the node factory) becomes the immutable `Node` datatype. A factor leaf is `Leaf(token)`, a binary node without operands.
- Exceptions become `Err` values. The message text is reduced to an error kind plus the reported location. The missing-newline error keeps the text of the token it names.
- The `*`/`/` loop of `parseTerm` (`Parser.cpp:101-108`) is unreachable code after a `return`, and has no counterpart in the model.
- The closing-brace check after a block's statement loop (`Parser.cpp:257-258`) is not modelled as a separate branch. The loop exits only on `}`, as `Parser.BlockItems` states.
- The scanner and the parser are not composed. The parser reads from an arbitrary token sequence ending in `Eof`, standing for what the parser's token source delivers.
  - The scanner's kind names differ from the parser's.
  - The parser's newline handling would be dead code behind a whitespace-skipping source.
- The initial previous token is a default-constructed `LexerToken` (the local `token` at `Parser.cpp:5`, copied into the previous token by the first `advanceToken`), whose kind comes from `LexerToken`'s default constructor. `LexerToken.hpp` is not part of this model. That kind is taken to be `ProgramToken`, and the token is `ProgramStart`.
- The root node is built outside `Parser.cpp`, and its token is not visible here. The model tags the root block with the same `ProgramStart` marker. What `ParseTokens` states about the root's token rests on that choice; what it states about the root's children does not.
- Parser.ParseStatement: its own contract states only progress. What statements produce is stated by ParserFacts.StatementEndsAtEof and ParserFacts.ProgramIsFirstStatement.
- Parser.ParseExpression: its own contract states only progress. What it accepts is stated by ParserFacts.ExpressionAcceptsChain and ParserFacts.ExpressionParsesChain.
- Parser.ParseTerm: its own contract states only progress. Its outcome is stated by ParserFacts.TermEndsAtEof and ParserFacts.ExpressionStep.
- Lexer.PunctuationKind: its contract states only that the kind is not a word kind. The full mapping is stated by LexerFacts.FixedSpellingAlone.
- Lexer.ShortOperatorKind: its contract states only that the kind is not a word kind. The full mapping is stated by LexerFacts.FixedSpellingAlone.
- Lexer.LongOperatorKind: its contract states only that the kind is not a word kind. The full mapping is stated by LexerFacts.FixedSpellingAlone.
