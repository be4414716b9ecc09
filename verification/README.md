# cpp_lox scanner, modelled in Dafny

This project models the scanner of cpp_lox, a C++ port of the Lox tree-walking
interpreter's front end. The scanner takes the full text of a Lox program and
makes one left-to-right pass over it. It keeps three integers (`start`,
`current`, `line`) and produces a token sequence that always ends with an
`Eof` token. Lexical errors ("Unexpected character", "Unterminated string.")
go to a diagnostic sink. They do not stop the scan.

The model is functional:

- **`tokens.dfy`, module `Tokens`.** The data model.
  - `TokenType` is the enumeration, in the order of the C++ enumeration.
  - `Literal` is `NoLit | Str(text) | Num(digits)`. The C++ `std::variant<std::string, double>` holds an empty string for tokens that carry no value. `NoLit` stands for that.
  - `Token` and the end-of-input token.
  - `Diagnostic`: each call of the sink becomes one (line, error) record.
  - The reserved-word table, entry for entry, as a `map`. It is related to an independent per-kind `Spelling`.
- **`cursor.dfy`, module `Cursor`.** The character classes (`isDigit`, `isAlpha`, `isAlphaNumeric`), `isAtEnd`, `peek`, `peekNext`, `match`, and the inner loops of the scanner:
  - the comment loop;
  - the digit and identifier runs;
  - the string-body loop with its line counting;
  - the number loop.

  `advance` is the step `current + 1` inside these functions. A cursor is a `nat` offset; the end of input is `|src|`.
- **`scanner.dfy`, module `Scanner`.**
  - `ScanToken` is one iteration of the main loop: one call of `scanToken`, which dispatches on the lead character. Its three branch functions, `StringStep`, `NumberStep` and `IdentifierStep`, model `string()`, `number()` and `identifier()`.
  - `Scan` is the main loop from an offset as a recursive function.
  - `ScanTokens` is `scanTokens` on fresh state (offset 0, line 1).
  - `ScanTokensLoop` is the same loop as `scanTokens` writes it, with a cursor and a line counter updated in place. It is proved equal to `ScanTokens`.
- **`properties.dfy`, module `ScannerProperties`.** Properties of the scanner against definitions that do not mention the scanner. The helpers `ScanTokensOutput`, `LastStep`, `TwoStepSource` and `SingleTokenSource` are the exception: they unfold the scan for the worked examples. The reference definitions are:
  - a grammar of blank text (whitespace and `//` comments);
  - the shapes of number and identifier lexemes;
  - the per-kind spellings.
- **`examples.dfy`, module `ScannerExamples`.** Concrete scans of small inputs (`<=`, `classic`, `123.`, `123.45`, strings, line feeds, `@`, a comment), each derived from the general lemmas.

`Scan` returns the `[start, current)` span of each token beside the tokens. This lets order and non-overlap be stated. The spans are bookkeeping of the model, not part of the C++ output.

## Model

| member | source | states |
|---|---|---|
| Tokens.KeywordTable | include/scanner.hpp:190-198 | The reserved-word table maps a text to a kind exactly when that kind is a keyword and the text is its spelling: no entry missing, none extra, none misspelled. |
| Tokens.KeywordsComplete | include/scanner.hpp:190-198 | Each of the 16 keyword kinds is in the table under its spelling. |
| Tokens.KeywordsSound | include/scanner.hpp:190-198 | Every table entry maps some keyword's spelling to that keyword. |
| Cursor.Peek | include/scanner.hpp:218-221 | At the end of input the lookahead is NUL, which is not a letter, digit, quote, line feed or `=`. Otherwise it is the character under the cursor. |
| Cursor.PeekNext | include/scanner.hpp:223-226 | Past the end the second lookahead is NUL, which is no digit. Otherwise it is the character after the cursor. |
| Cursor.Match | include/scanner.hpp:211-216 | The cursor moves by exactly one iff input remains and the next character is the expected one. Otherwise it stays. It never passes the end. |
| Cursor.CommentEnd | include/scanner.hpp:322 | The comment loop stops at the first line feed at or after the cursor, without consuming it, or at the end of input. Everything it skips is not a line feed. |
| Cursor.DigitsEnd | include/scanner.hpp:252 | The digit loop consumes the maximal run of decimal digits. |
| Cursor.AlphaNumericEnd | include/scanner.hpp:265 | The identifier loop consumes the maximal run of `[A-Za-z0-9_]`. |
| Cursor.StringEnd | include/scanner.hpp:229-232 | The string loop stops at the first double quote or at the end of input. The line counter grows by the number of line feeds passed. |
| Cursor.NumberEnd | include/scanner.hpp:251-258 | The number loop consumes digits and at most one dot, and only a dot that a digit follows. It is never followed by a digit. If it consumed no dot, it is not followed by a dot and a digit, so an available fraction is always taken. |
| Scanner.StringStep | include/scanner.hpp:228-243 | A string is reported as unterminated exactly when no closing quote follows the opening one. In that case the cursor is at the end of input. Otherwise the step ends just past the first closing quote, and the literal is the text between the quotes. |
| Scanner.NumberStep | include/scanner.hpp:251-262 | A number keeps its whole lexeme as the literal and leaves the line unchanged. The lexeme holds digits and at most one dot, which a digit follows. It is not followed by a digit, and an available fraction is always taken. |
| Scanner.IdentifierStep | include/scanner.hpp:264-272 | An identifier consumes a maximal run of `[A-Za-z0-9_]` and leaves the line unchanged. Its kind is the one the keyword table gives its lexeme, or IDENTIFIER. |
| ScannerProperties.StringStepTerminated | include/scanner.hpp:228-243 | When a closing quote exists, the string step ends just past the first one. The literal is the text in between and the line grows by its line feeds. Its token's lexeme is the two quotes around that text. |
| Cursor.DigitsSpelled | include/scanner.hpp:245 | A digit is exactly one of the ten characters `0` to `9`, written out one by one. |
| Cursor.AlphaSpelled | include/scanner.hpp:246-248 | A letter is exactly one of `a`-`z`, `A`-`Z` or `_`, written out one by one. |
| Cursor.AlphaNumericSpelled | include/scanner.hpp:249 | An alphanumeric character is exactly a letter, `_` or a digit from those written-out lists. |
| Scanner.IdentifierKind | include/scanner.hpp:264-272 | An identifier-shaped lexeme gets a keyword kind only when it is that keyword's whole spelling. Otherwise it is IDENTIFIER, and no keyword is spelled that way. |
| Scanner.ScanToken | include/scanner.hpp:274-350 | Every iteration consumes at least one character and stays inside the source. The line counter never decreases. No iteration emits Eof. |
| Scanner.ScanTokenSameLine | include/scanner.hpp:274-333 | An iteration that starts at neither a quote nor a line feed consumes no line feed and leaves the line counter unchanged. This covers comments, numbers and identifiers. |
| Scanner.StringStepLine | include/scanner.hpp:228-242 | After a string, terminated or not, the line counter has counted exactly the line feeds inside it. |
| Scanner.ScanTokenLine | include/scanner.hpp:228-333 | After any iteration, the line counter equals its old value plus the line feeds in the characters consumed. |
| Scanner.Scan | include/scanner.hpp:172-178 | The main loop from an offset ends with the line counter equal to its start value plus the line feeds in the rest of the source. |
| Scanner.ScanWellFormed | include/scanner.hpp:204-207 | Each token's lexeme is the source slice `[start, current)` of its iteration. Slices are non-empty, in increasing source order and non-overlapping. No token before the end is Eof. |
| Scanner.ScanTokens | include/scanner.hpp:172-181 | The result always ends with exactly one Eof token. That token has an empty lexeme, no literal, and line 1 plus the number of line feeds in the source. Every earlier token has a non-empty lexeme. |
| Scanner.Iterate | include/scanner.hpp:176-177 | One in-place iteration moves the cursor forward inside the source. Moving its output from the rest of the scan onto the output so far leaves the whole output unchanged. |
| Scanner.ScanTokensLoop | include/scanner.hpp:172-181 | The imperative loop yields exactly the tokens and diagnostics of the recursive scan. |
| ScannerProperties.Punctuation | include/scanner.hpp:275-318 | For a punctuation or operator lead character, the token's kind is the one spelled by the consumed text. `!`, `=`, `<`, `>` take a second character iff it is `=`. No longer operator spelling occurs at the lexeme start (maximal munch). A lone `/` is SLASH. |
| ScannerProperties.Comment | include/scanner.hpp:319-323 | `//` emits nothing. It skips to the next line feed without consuming it, or to the end of input, and leaves the line counter unchanged. |
| ScannerProperties.SkipCases | include/scanner.hpp:319-333 | An iteration emits nothing and reports nothing exactly at space, CR, TAB, LF or `//`. A whitespace character is consumed alone. Only LF advances the line. |
| ScannerProperties.UnexpectedCharacterResumes | include/scanner.hpp:337-347 | Exactly the characters outside the dispatch table are reported as unexpected. Such a character is consumed alone and adds one diagnostic at the current line and no token. Scanning resumes right after it. |
| ScannerProperties.ReportCases | include/scanner.hpp:228-347 | An iteration reports a diagnostic exactly when its character is unexpected, or when it is an opening quote with no closing quote anywhere after it. |
| ScannerProperties.NumberEndIsLongest | include/scanner.hpp:251-258 | From a leading digit, the number loop stops at the end of the longest prefix shaped `digits` or `digits.digits`. |
| ScannerProperties.NumberToken | include/scanner.hpp:251-262 | A digit starts a NUMBER token whose lexeme has number shape and is the longest such prefix. The literal keeps the lexeme text, and the line is unchanged. |
| ScannerProperties.IdentifierToken | include/scanner.hpp:245-272 | A letter or `_` starts a token whose lexeme is the maximal identifier-shaped run. Its kind is a keyword exactly when the whole lexeme is that keyword's spelling; otherwise it is IDENTIFIER. |
| ScannerProperties.TerminatedString | include/scanner.hpp:228-243 | A string up to the first closing quote becomes a STRING token. Its lexeme includes both quotes and its literal is exactly the text between them. Its line is the counter at the closing quote. |
| ScannerProperties.UnterminatedStringEndsScan | include/scanner.hpp:228-237 | A string with no closing quote emits no token. It reports one "Unterminated string" diagnostic at the line reached at the end of input, and the scan ends there. |
| ScannerProperties.TokenLines | include/scanner.hpp:204-207 | Each token records the initial line plus the line feeds before the end of its lexeme. |
| ScannerProperties.BlankScan | include/scanner.hpp:319-333 | From any offset, the scan emits no token and no diagnostic exactly when the rest of the source is whitespace and comments. |
| ScannerProperties.BlankSource | include/scanner.hpp:319-333 | A source is only whitespace and comments iff its scan is the Eof token alone with no diagnostic. |
| ScannerProperties.PunctuationRoundTrip | include/scanner.hpp:275-318 | The spelling of every punctuation and operator kind scans back to exactly one token of that kind, then Eof. |
| ScannerProperties.KeywordRoundTrip | include/scanner.hpp:264-272 | The spelling of every keyword scans back to exactly one token of that keyword's kind, never IDENTIFIER, then Eof. |
| ScannerExamples.LessEqualExample | include/scanner.hpp:313-314 | `<=` is one LESS_EQUAL token. |
| ScannerExamples.ClassicExample | include/scanner.hpp:264-272 | `classic` is one IDENTIFIER, not CLASS followed by more text. |
| ScannerExamples.TrailingDotExample | include/scanner.hpp:251-258 | `123.` is NUMBER `123`, then DOT. |
| ScannerExamples.FractionExample | include/scanner.hpp:251-262 | `123.45` is one NUMBER token. |
| ScannerExamples.StringExample | include/scanner.hpp:228-243 | A quoted `abc` is one STRING token whose literal drops the quotes. |
| ScannerExamples.UnterminatedExample | include/scanner.hpp:233-236 | An unterminated string yields only Eof and one diagnostic on line 1. |
| ScannerExamples.LineTrackingExample | include/scanner.hpp:331-333 | After two line feeds, PLUS and Eof are on line 3. |
| ScannerExamples.UnexpectedExample | include/scanner.hpp:337-347 | `@` yields only Eof and one unexpected-character diagnostic. |
| ScannerExamples.BlankExample | include/scanner.hpp:319-333 | A comment, a line feed and a space yield only Eof on line 2. |

## Left out

- `std::stod`, the conversion of a NUMBER lexeme to `double`: floating point. The literal keeps its digit text (`Num(digits)`).
- Scanner.NumberStep: does not model the abort when `std::stod` throws `std::out_of_range`. It throws for a lexeme outside the range of a `double`, such as `1` followed by 309 zeros. Nothing catches the exception, so the C++ scan ends without returning any token, while the model emits the NUMBER token with its digit text and goes on.
- ScannerProperties.NumberToken: states the NUMBER token for every digit-led lexeme. It omits the C++ abort on an out-of-range literal, for the same `std::stod` reason as `Scanner.NumberStep`. `Scanner.ScanTokens` therefore returns tokens on inputs where the C++ terminates the process.
- `to_string(TokenType)` and `Token::operator<<`: display formatting only.
- The diagnostic sink's message text. This covers the formatting in `error_handler.hpp`, the `char repr`/`int repr` text of the unexpected-character message, and the printing. A diagnostic is modelled as its line and its kind (unexpected character with the character, or unterminated string).
- `lox.hpp` and `srcs/main.cpp`: file reading, the prompt loop, printing tokens, and the exit codes 64 and 65. These are process I/O. The `hadError` flag is never set by the sink, so the exit-65 path cannot be reached. The model therefore has no error flag.
- Reusing one scanner object for several `scanTokens` calls. Its token vector and cursor are never reset. The model scans once from fresh state, as each run constructs a new scanner.
- The line counter and cursor are C++ `int`. They are modelled as unbounded naturals, so 32-bit overflow on inputs of more than 2^31 characters or lines is not modelled.
- Characters are Dafny `char`. The C++ works on `char` bytes, whose signedness affects only `int(c)` in the message text. None of the character-class ranges involve bytes above 127. A Dafny `string` here stands for the C++ byte string, one `char` per byte (U+0000 to U+00FF). Source text with characters above U+00FF must first be split into its bytes: for example, the UTF-8 `é` is the two bytes 0xC3 0xA9 and yields two unexpected-character diagnostics, whereas the single `char` 'é' yields one.
