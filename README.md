# Monkey front end: tokens, lexer, syntax tree and `let` parser

This project models the front end of the Monkey interpreter `monkey_rs`:

- **Token kinds and tokens** (`src/token.rs`). This covers the `Display` rendering of each kind, the keyword table and `lookup_ident`.
- **The lexer** (`src/lexer.rs`). It is a cursor over the source text that returns one token per `next_token` call.
- **The syntax tree** (`src/ast.rs`). This is a program, its statements and the literal each of them reports.
- **The parser** (`src/parser.rs`). It keeps a current slot and a peek slot of tokens and so far parses only `let` statements.

The model has six modules:

- `Options` is the optional-value datatype.
- `Tokens` models `token.rs` as pure functions.
- `Lexing` has two parts:
  - `Scan(input, pos)` is a reference definition of one scanning step.
  - The `Lexer` class holds the source's fields (`input`, `position`, `readPosition`, `ch`). `NextToken` is proved to perform exactly one `Scan` step.
- `Ast` models the syntax tree.
- `Parsing` has two parts:
  - A value `Window(cur, peek, pos)` and functions over it describe each parser operation.
  - The `Parser` class holds a `Lexer` and the two slots. Its methods are proved to follow those functions.
- `LexerExamples` and `ParserExamples` state what the lexer and parser produce on the inputs their tests use.

Main results:

- **Lexer:**
  - Every token's literal agrees with its kind.
  - No literal contains whitespace.
  - For NUL-free input, the literals of all tokens put together give back the input with its whitespace removed.
  - Once a NUL-free input is exhausted, EOF repeats forever.
  - Operator displays and reserved words scan back to their kinds.
- **Parser:**
  - `current_token_is` looks at the peek slot, not the current slot.
  - Every statement the parser builds is a well-formed `let`.
  - Because the loop tests the peek slot, a text whose second token is EOF parses to nothing.
  - Because a parsed `let` skips everything up to EOF, a NUL-free text parses to at most one statement. The three-statement `let` test input parses to the single statement for `x`.

Where the code and its documentation disagree, the model follows the code:

- **Three-`let` test.** The test in `src/ast/let_statement.rs` expects three statements. The code yields one, which `ParserExamples.ThreeLetsGiveOne` proves.
- **Whitespace.** The lexer skips whatever `char::is_whitespace` accepts. On ASCII that includes vertical tab and form feed, not only space, tab, newline and carriage return.
- **Embedded NUL.** A `'\0'` inside the text produces an EOF token just as the end of the text does, and the cursor still moves past it (`LexerExamples.NulIsNotFinal`).
- **The `Let` statement.** `src/ast.rs` declares `Statement::Let` with no payload. The parser builds `LetStatement` and `Identifier` values, which that file does not define. The model gives the `Let` statement a `LetStatement` payload, as the parser uses it. `Ast.StatementLiteral` stays the empty string, as `src/ast.rs` writes it.

## Model

| member | source | states |
|---|---|---|
| Tokens.Display | src/token.rs:59-91 | operator kinds render as a one- or two-character lexeme that does not start with a capital; every other kind renders as a non-empty upper-case word |
| Tokens.DisplayRoundTrip | src/token.rs:61-89 | the rendered string of every kind reads back as that kind, so rendering loses nothing |
| Tokens.DisplayInjective | src/token.rs:61-89 | two kinds with the same rendering are the same kind |
| Tokens.Keywords | src/token.rs:93-103 | every entry maps a reserved word to the keyword kind spelled that way, and every keyword kind is in the table under its reserved word |
| Tokens.LookupIdent | src/token.rs:93-107 | the result is `Ident` or a keyword kind; a keyword result is the kind whose reserved word is the argument; `Ident` means no reserved word equals the argument |
| Tokens.LookupSpelling | src/token.rs:93-103 | each of the seven reserved words is found in the table under its own kind |
| Tokens.CapitalisedKeywordIsIdent | src/token.rs:105-107 | lookup is exact: `Let` and `FN` are identifiers |
| Lexing.IsIdentChar | src/lexer.rs:111-116 | an identifier character is ASCII and is never a digit, whitespace, the NUL sentinel, `=`, `!` or one of the single-character symbols, so the identifier branch excludes every other branch |
| Lexing.RunEnd | src/lexer.rs:82-104 | the end of the longest run of one character class starting at a position: every character before it is in the class, the one at it (or the sentinel) is not, and it never passes the end of the text |
| Lexing.ScanAt | src/lexer.rs:28-68 | a step from a token's first character always moves forward; it yields EOF exactly at the NUL sentinel, with an empty literal and one character consumed; any other token's literal is the exact text consumed |
| Lexing.Scan | src/lexer.rs:24-69 | one `next_token` step from a cursor position: whitespace is skipped, then the same guarantees hold relative to the first non-white character; in NUL-free text EOF only comes after the end |
| Lexing.Tokenize | src/lexer.rs:140-141 | the tokens `next_token` returns from a position up to the first EOF: empty exactly when the first step is EOF, starting with that first token, and never containing EOF |
| Lexing.ScanSingleCharacter | src/lexer.rs:36-54 | the twelve single-character symbols give an operator token whose literal is that character and equals the kind's display, consuming one character |
| Lexing.ScanTwoCharacter | src/lexer.rs:29-50 | `=` and `!` followed by `=` give `==`/`!=` and consume two characters, otherwise `=`/`!` alone and one character |
| Lexing.ScanIdentifier | src/lexer.rs:56-59 | a letter or `_` starts the longest run of letters and underscores (digits end it); the kind is the keyword-table lookup of that run (a keyword or `Ident`) |
| Lexing.ScanNumber | src/lexer.rs:60-63 | a digit starts the longest run of digits, an `Int` token |
| Lexing.ScanIllegal | src/lexer.rs:64-68 | any other non-NUL character is an `Illegal` token holding just that character |
| Lexing.ScanPastEnd | src/lexer.rs:71-80 | at or past the end of the text every step is EOF with an empty literal, moving one position on |
| Lexing.EofIsFinal | src/lexer.rs:55 | in NUL-free text the step after an EOF is EOF again |
| Lexing.LiteralAgreesWithKind | src/lexer.rs:28-65 | every token's literal agrees with its kind: an operator's literal is its display string, a keyword's literal is its reserved word, an identifier's literal is not a reserved word |
| Lexing.LiteralHasNoWhitespace | src/lexer.rs:100-104 | no token literal contains a whitespace character |
| Lexing.DisplayRelexes | src/lexer.rs:140-148 | scanning the display string of any operator kind gives back that kind with that literal, consuming all of it |
| Lexing.WordRelexes | src/lexer.rs:82-89 | a non-empty word of letters and underscores scans as one token: the whole word, with its keyword-table kind |
| Lexing.SpellingRelexes | src/token.rs:93-103 | scanning a reserved word gives back its keyword kind |
| Lexing.LiteralsRebuildInput | src/lexer.rs:24-104 | in NUL-free text, the literals of all tokens before the first EOF, put together, are the text with its whitespace removed |
| Lexing.Lexer.constructor | src/lexer.rs:12-22 | a new lexer has read the first character: position 0, read position 1, `ch` the first character or the sentinel |
| Lexing.Lexer.ReadChar | src/lexer.rs:71-80 | the cursor moves to the old read position, the read position is one ahead and `ch` is the character there or the sentinel |
| Lexing.Lexer.PeekChar | src/lexer.rs:106-108 | the character after the current one, or NUL past the end |
| Lexing.Lexer.SkipWhitespace | src/lexer.rs:100-104 | the cursor moves to the end of the whitespace run it stands on |
| Lexing.Lexer.ReadIdentifier | src/lexer.rs:82-89 | the cursor moves to the end of the run of letters and underscores and the result is the text passed over |
| Lexing.Lexer.ReadNumber | src/lexer.rs:91-98 | the cursor moves to the end of the digit run and the result is the text passed over |
| Lexing.Lexer.NextToken | src/lexer.rs:24-69 | the returned token and the new cursor position are exactly one `Scan` step from the old position, and the cursor invariant is kept |
| LexerExamples.PunctuationOpening | src/lexer.rs:125-136 | on `=+(){},;` the first four calls give `=`, `+`, `(`, `)` with those literals |
| LexerExamples.PunctuationClosing | src/lexer.rs:125-136 | on `=+(){},;` the next four calls give `{`, `}`, `,`, `;`, then EOF |
| LexerExamples.LetSourceKeyword | src/ast/let_statement.rs:19 | `let x = 5;` starts with the `let` keyword token |
| LexerExamples.LetSourceName | src/ast/let_statement.rs:19 | the space is skipped and `x` is an identifier |
| LexerExamples.LetSourceSymbols | src/ast/let_statement.rs:19 | then `=`, the integer `5`, `;` and EOF |
| LexerExamples.LetTokens | src/ast/let_statement.rs:19 | the tokens of `let x = 5;` are exactly let, x, =, 5, ; |
| LexerExamples.DigitEndsIdentifier | src/lexer.rs:111-116 | digits are not identifier characters: `x1` is `x` then `1` |
| LexerExamples.MinusBeforeNumber | src/lexer.rs:43 | `-5` is a minus token, then the number 5 |
| LexerExamples.NulIsNotFinal | src/lexer.rs:55 | an embedded NUL is an EOF token, and the call after it scans the text beyond |
| Ast.NewIdentifier | src/parser.rs:60-61 | a name built from a token keeps the token, and its value is the token's literal |
| Ast.StatementLiteral | src/ast.rs:21-25 | a statement's literal is empty |
| Ast.ProgramLiteral | src/ast.rs:9-15 | an empty program's literal is empty; otherwise it is its first statement's literal |
| Ast.ProgramLiteralAppend | src/ast.rs:9-15 | appending statements to a non-empty program does not change its literal |
| Ast.ProgramLiteralIsEmpty | src/ast.rs:9-25 | every program's literal is the empty string |
| Parsing.Advance | src/parser.rs:41-44 | after `read_token` the current slot holds the old peek token, the peek slot is full and the lexer has moved forward |
| Parsing.Prime | src/parser.rs:20-22 | after the two priming reads the current slot holds the first token scanned from the lexer's position and the peek slot the second, and the lexer stands after the second |
| Parsing.PeekExpected | src/parser.rs:83-90 | `expect_peek` succeeds exactly when the peek token has the kind; on success the expected token becomes current, on failure nothing changes |
| Parsing.SkippedToEof | src/parser.rs:68-70 | the loop ends with EOF in the peek slot, never moves back, and does nothing if EOF is already there |
| Parsing.LetParsed | src/parser.rs:53-77 | a statement is built exactly when there is a current token and the next two tokens are an identifier and `=`; it holds the current token and a name from the identifier, with no value, and the parser is left with EOF in the peek slot; on failure the current slot is emptied and, if the identifier matched, one token was read |
| Parsing.StatementParsed | src/parser.rs:46-51 | only a current `let` token starts a statement; no current token or another kind changes nothing and yields none; otherwise as for `let` |
| Parsing.ParseFrom | src/parser.rs:27-39 | the statements collected while the peek token is not EOF; none once it is EOF |
| Parsing.CurrentSlotIgnored | src/parser.rs:79-81 | the loop test gives the same answer whatever the current slot holds |
| Parsing.PrimeSound | src/parser.rs:13-25 | after priming, both slots hold tokens whose keyword and identifier literals agree with their kinds (a keyword's literal is its reserved word, an identifier's is no reserved word), and in NUL-free text an EOF peek means the lexer is past the end |
| Parsing.LetSound | src/parser.rs:53-77 | parsing a `let` keeps that property and builds a well-formed statement |
| Parsing.StatementsWellFormed | src/parser.rs:27-77 | every collected statement has the `let` token with literal `let`, an identifier name that is not a reserved word and whose value is its text, and no value |
| Parsing.NothingAfterLet | src/parser.rs:68-70 | in NUL-free text, once a `let` statement is parsed nothing more is collected |
| Parsing.AtMostOneStatement | src/parser.rs:27-39 | in NUL-free text a program holds at most one statement |
| Parsing.LastTokenNeverParsed | src/parser.rs:30 | when the second token is EOF the program is empty: the loop tests the peek slot, so the first token is never parsed |
| Parsing.LeadingLetIsTheProgram | src/parser.rs:53-77 | a NUL-free text starting `let <name> =` parses to exactly that one statement, whatever follows |
| Parsing.Parser.constructor | src/parser.rs:13-25 | a new parser has read two tokens: the lexer's next token is current and the one after is in the peek slot |
| Parsing.Parser.ReadToken | src/parser.rs:41-44 | the fields change exactly as `Advance` says |
| Parsing.Parser.CurrentTokenIs | src/parser.rs:79-81 | true exactly when the peek slot holds a token of the kind |
| Parsing.Parser.ExpectPeek | src/parser.rs:83-90 | result and new state are those of `PeekExpected` |
| Parsing.Parser.ParseLetStatement | src/parser.rs:53-77 | result and new state are those of `LetParsed`, with the skipping loop proved against `SkippedToEof` |
| Parsing.Parser.ParseStatement | src/parser.rs:46-51 | result and new state are those of `StatementParsed` |
| Parsing.Parser.ParseProgram | src/parser.rs:27-39 | the program's statements are those `ParseFrom` collects from the starting window, in order, and the parser stops with EOF in the peek slot |
| Parsing.ParseText | src/ast/let_statement.rs:24-26 | lexing and parsing a text gives `ParseSource` of it; every statement is well formed, and a NUL-free text gives at most one |
| ParserExamples.LetAloneIsEmpty | src/parser.rs:30 | the text `let` parses to no statement |
| ParserExamples.SingleLet | src/ast/let_statement.rs:19 | `let x = 5;` parses to one statement: the `let` token and the name `x`, no value |
| ParserExamples.ThreeLetsGiveOne | src/ast/let_statement.rs:17-32 | the test's three-statement text parses to the single statement for `x` |

## Left out

- Reading source text from the terminal (`src/main.rs`) is not part of this model. It only does I/O.
- The derive macros (`monkey_derive/src/lib.rs`) are not modelled as code generation. The `token_literal` they generate is modelled as `Ast.LetLiteral` and `Ast.IdentifierLiteral`.
- The runtime downcasting of `src/utils/poly.rs` is replaced by pattern matching on the `Statement` datatype.
- Expressions: the `Expression` enum has no variants and the parser never builds one. The model has a single placeholder constructor, and every `let` value is `None`.
- Lexing.Lexer.constructor, Lexing.Lexer.Valid and Parsing.ParseText require ASCII text, and through `Lexer.Valid` so does every `Lexer` and `Parser` method. `read_char` indexes bytes while `peek_char` counts characters, and the two only agree on ASCII.
- Lexing.LiteralsRebuildInput, Lexing.EofIsFinal, Parsing.NothingAfterLet and Parsing.AtMostOneStatement require NUL-free text. An embedded NUL is an EOF token after which scanning goes on, and these properties do not hold across one.
- The lazily built `HashMap` of keywords is a constant map. The `Formatter` of `Display` is a function returning the string.
- Machine-width arithmetic on positions (`usize`) is not modelled. Positions are unbounded naturals.
- LexerExamples.PunctuationOpening and LexerExamples.PunctuationClosing state the `=+(){},;` test one scanning step at a time, not as one token-sequence equality.
- The larger lexer test at `src/lexer.rs:152-263` is not replayed token by token. It is covered by the per-character lemmas in `Lexing`.
